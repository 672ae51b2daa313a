/** Collections, open collections and their nested value records, with the
    validators run before a collection is created. */
module Collections {
  import opened Wrappers
  import opened Validation

  datatype Logo = Logo(thumbUrl: string, avatarUrl: string)

  datatype Photo = Photo(retinaUrl: string, avatarUrl: string)

  /** How a payment is shared with a second recipient. */
  datatype SplitPayment = SplitPayment(
    email: string,
    fixedCut: nat,
    variableCut: nat,
    splitHeader: bool)

  /** A named set of bills. */
  datatype Collection = Collection(
    id: string,
    title: string,
    logo: Option<Logo>,
    splitPayment: Option<SplitPayment>,
    status: string)

  /** The body of a collection listing; `page` is a JSON number kept as its text. */
  datatype CollectionIndexResult = CollectionIndexResult(
    collections: Option<seq<Collection>>,
    page: string)

  /** A one-off payment form. */
  datatype OpenCollection = OpenCollection(
    id: string,
    title: string,
    description: string,
    reference1Label: string,
    reference2Label: string,
    emailLink: string,
    amount: nat,
    fixedAmount: bool,
    tax: nat,
    fixedQuantity: bool,
    paymentButton: string,
    photo: Option<Photo>,
    splitPayment: Option<SplitPayment>,
    url: string,
    status: string)

  datatype OpenCollectionIndexResult = OpenCollectionIndexResult(
    openCollections: Option<seq<OpenCollection>>,
    page: string)

  /** The zero-valued split payment the client substitutes for a missing one. */
  const EmptySplitPayment := SplitPayment("", 0, 0, false)

  const PaymentButtons: set<string> := {"buy", "pay"}

  /** The fields an open collection's validator checks. */
  const OpenCollectionFields: set<Field> :=
    {Title, Description, Reference1Label, Reference2Label, EmailLink, PaymentButton, SplitPaymentField}

  /** Only the e-mail address is checked, and an empty one passes. */
  function SplitPaymentValidate(s: SplitPayment, f: Formats): (r: map<Field, RuleError>)
    ensures r.Keys <= {Email}
    ensures Email in r <==> s.email != "" && !f.isEmail(s.email)
    ensures Email in r ==> r[Email] == NotEmail
  {
    ValidateOne(s.email, IsEmail, f);
    Filter(map[Email := Validate(s.email, [IsEmail], f)])
  }

  /** The cuts and the split-header flag never affect the result. */
  lemma SplitPaymentChecksOnlyEmail(s: SplitPayment, fixedCut: nat, variableCut: nat, splitHeader: bool, f: Formats)
    ensures SplitPaymentValidate(s, f)
         == SplitPaymentValidate(s.(fixedCut := fixedCut, variableCut := variableCut, splitHeader := splitHeader), f)
  {
  }

  /** The split payment substituted for a missing one always passes. */
  lemma EmptySplitPaymentPasses(f: Formats)
    ensures SplitPaymentValidate(EmptySplitPayment, f) == map[]
  {
  }

  /** A collection needs a title and a valid split payment. The split payment
      is dereferenced, so it must be present. */
  function CollectionValidate(c: Collection, f: Formats): (r: FieldErrors)
    requires c.splitPayment.Some?
    ensures r.Keys <= {Title, SplitPaymentField}
    ensures Title in r <==> c.title == ""
    ensures Title in r ==> r[Title] == Failed(Blank)
    ensures SplitPaymentField in r <==> SplitPaymentValidate(c.splitPayment.value, f) != map[]
    ensures SplitPaymentField in r ==> r[SplitPaymentField] == Nested(SplitPaymentValidate(c.splitPayment.value, f))
  {
    Filter(map[
      Title := CheckRequired(c.title, f),
      SplitPaymentField := NestedOf(SplitPaymentValidate(c.splitPayment.value, f))
    ])
  }

  /** The result is nil exactly when the title is set and the split payment's
      e-mail is empty or well-formed; the id, logo and status never matter. */
  lemma CollectionValidIff(c: Collection, f: Formats)
    requires c.splitPayment.Some?
    ensures CollectionValidate(c, f) == map[]
        <==> c.title != "" && (c.splitPayment.value.email == "" || f.isEmail(c.splitPayment.value.email))
  {
    var r := CollectionValidate(c, f);
    if r != map[] {
      var k :| k in r;
    }
  }

  /** The id, logo and status never change a collection's result. */
  lemma CollectionIgnoresUnlistedFields(c: Collection, f: Formats, id: string, logo: Option<Logo>, status: string)
    requires c.splitPayment.Some?
    ensures CollectionValidate(c, f) == CollectionValidate(c.(id := id, logo := logo, status := status), f)
  {
  }

  /** The outcome of the rules listed for field `k` of an open collection. */
  function OpenCollectionRule(o: OpenCollection, f: Formats, k: Field): Option<FieldError>
    requires o.splitPayment.Some?
  {
    match k
    case Title => CheckRequiredLength(o.title, 50, f)
    case Description => CheckRequiredLength(o.description, 200, f)
    case Reference1Label => CheckMaxLength(o.reference1Label, 20, f)
    case Reference2Label => CheckMaxLength(o.reference2Label, 20, f)
    case EmailLink => CheckOptional(o.emailLink, IsEmail, f)
    case PaymentButton => CheckOptional(o.paymentButton, In(PaymentButtons), f)
    case SplitPaymentField => NestedOf(SplitPaymentValidate(o.splitPayment.value, f))
    case _ => None
  }

  /** When field `k` of an open collection is rejected, stated directly: a
      title of 1..50 bytes and a description of 1..200 bytes are required;
      reference labels may have at most 20 bytes; the e-mail link, payment
      button and split payment's e-mail are checked only when non-empty. */
  predicate OpenCollectionFieldFails(o: OpenCollection, f: Formats, k: Field)
    requires o.splitPayment.Some?
  {
    match k
    case Title => o.title == "" || Utf8Length(o.title) > 50
    case Description => o.description == "" || Utf8Length(o.description) > 200
    case Reference1Label => Utf8Length(o.reference1Label) > 20
    case Reference2Label => Utf8Length(o.reference2Label) > 20
    case EmailLink => o.emailLink != "" && !f.isEmail(o.emailLink)
    case PaymentButton => o.paymentButton != "" && o.paymentButton !in PaymentButtons
    case SplitPaymentField => o.splitPayment.value.email != "" && !f.isEmail(o.splitPayment.value.email)
    case _ => false
  }

  /** The entry reported for a failing field `k` of an open collection. */
  function OpenCollectionError(o: OpenCollection, k: Field): FieldError
    requires o.splitPayment.Some?
  {
    match k
    case Title => Failed(if o.title == "" then Blank else BadLength(1, 50))
    case Description => Failed(if o.description == "" then Blank else BadLength(1, 200))
    case Reference1Label => Failed(BadLength(0, 20))
    case Reference2Label => Failed(BadLength(0, 20))
    case EmailLink => Failed(NotEmail)
    case PaymentButton => Failed(NotAllowed)
    case SplitPaymentField => Nested(map[Email := NotEmail])
    case _ => Failed(Blank)
  }

  /** Field `k`'s rules fail exactly when `OpenCollectionFieldFails` says,
      with `OpenCollectionError`'s entry. */
  lemma OpenCollectionRuleMeaning(o: OpenCollection, f: Formats, k: Field)
    requires o.splitPayment.Some?
    ensures OpenCollectionRule(o, f, k).Some? <==> OpenCollectionFieldFails(o, f, k)
    ensures OpenCollectionRule(o, f, k).Some? ==> OpenCollectionRule(o, f, k).value == OpenCollectionError(o, k)
  {
    if k == SplitPaymentField {
      var inner := SplitPaymentValidate(o.splitPayment.value, f);
      if inner != map[] {
        assert inner == map[Email := NotEmail];
      }
    }
  }

  /** The open collection's aggregated error has an entry for exactly the
      fields whose rules fail. The split payment is dereferenced, so it must
      be present. */
  function OpenCollectionValidate(o: OpenCollection, f: Formats): (r: FieldErrors)
    requires o.splitPayment.Some?
    ensures forall k :: k in r <==> OpenCollectionFieldFails(o, f, k)
    ensures forall k | k in r :: r[k] == OpenCollectionError(o, k)
  {
    var entries := map k | k in OpenCollectionFields :: OpenCollectionRule(o, f, k);
    forall k
      ensures k in entries && entries[k].Some? <==> OpenCollectionFieldFails(o, f, k)
      ensures k in entries && entries[k].Some? ==> entries[k].value == OpenCollectionError(o, k)
    {
      OpenCollectionRuleMeaning(o, f, k);
    }
    Filter(entries)
  }

  /** Every rule of an open collection, spelled out field by field. */
  predicate OpenCollectionAllRulesPass(o: OpenCollection, f: Formats)
    requires o.splitPayment.Some?
  {
    && o.title != "" && Utf8Length(o.title) <= 50
    && o.description != "" && Utf8Length(o.description) <= 200
    && Utf8Length(o.reference1Label) <= 20
    && Utf8Length(o.reference2Label) <= 20
    && (o.emailLink == "" || f.isEmail(o.emailLink))
    && (o.paymentButton == "" || o.paymentButton in PaymentButtons)
    && (o.splitPayment.value.email == "" || f.isEmail(o.splitPayment.value.email))
  }

  /** The result is nil exactly when every listed rule passes. */
  lemma OpenCollectionValidIff(o: OpenCollection, f: Formats)
    requires o.splitPayment.Some?
    ensures OpenCollectionValidate(o, f) == map[] <==> OpenCollectionAllRulesPass(o, f)
  {
    var r := OpenCollectionValidate(o, f);
    if r == map[] {
      assert Title !in r && Description !in r && Reference1Label !in r && Reference2Label !in r;
      assert EmailLink !in r && PaymentButton !in r && SplitPaymentField !in r;
    } else {
      var k :| k in r;
      assert OpenCollectionFieldFails(o, f, k);
    }
  }

  /** The fields no rule mentions (id, amount, tax, the fixed-amount and
      fixed-quantity flags, photo, URL and status) never change the result. */
  lemma OpenCollectionIgnoresUnlistedFields(
    o: OpenCollection, f: Formats,
    id: string, amount: nat, fixedAmount: bool, tax: nat, fixedQuantity: bool,
    photo: Option<Photo>, url: string, status: string)
    requires o.splitPayment.Some?
    ensures OpenCollectionValidate(o, f)
         == OpenCollectionValidate(o.(id := id, amount := amount, fixedAmount := fixedAmount, tax := tax,
                                      fixedQuantity := fixedQuantity, photo := photo, url := url,
                                      status := status), f)
  {
    var o' := o.(id := id, amount := amount, fixedAmount := fixedAmount, tax := tax,
                 fixedQuantity := fixedQuantity, photo := photo, url := url, status := status);
    var r, r' := OpenCollectionValidate(o, f), OpenCollectionValidate(o', f);
    forall k
      ensures OpenCollectionFieldFails(o, f, k) == OpenCollectionFieldFails(o', f, k)
      ensures OpenCollectionError(o, k) == OpenCollectionError(o', k)
    {
    }
    assert r.Keys == r'.Keys;
  }
}
