/** The client's decision logic around each HTTP exchange: how parameters are
    normalised into a request, which payload is validated first, and how the
    observed response becomes a value or an error. The exchange itself is a
    parameter: `Response` says what the transport and the JSON decoder
    produced. */
module Client {
  import opened Wrappers
  import opened Errors
  import opened Validation
  import opened Collections
  import opened Bills
  import opened BankAccounts
  import opened PaymentMethods
  import opened Transactions

  datatype Method = Get | Post | Put | Delete

  /** The query parameters a request carries; `None` leaves a parameter unset. */
  datatype Query = Query(page: Option<int>, status: Option<string>, accountNumbers: seq<string>)

  const NoQuery := Query(None, None, [])

  /** The JSON body of a request, before encoding. */
  datatype Body =
    | NoBody
    | CollectionBody(collection: Collection)
    | OpenCollectionBody(openCollection: OpenCollection)
    | BillBody(bill: Bill)
    | BankAccountBody(bankAccount: BankAccount)
    | PaymentMethodsBody(list: PaymentMethodList)

  /** A request relative to the API's base URL. */
  datatype Request = Request(verb: Method, path: string, query: Query, body: Body)

  /** What one exchange produced: the transport failed, or a response arrived
      with a status code and the decoder filled `decoded`, perhaps reporting
      an error. */
  datatype Response<T> =
    | TransportFailure(reason: string)
    | Received(status: int, decoded: T, decodeError: Option<string>)

  datatype ClientError =
    | Sentinel(sentinel: SentinelError)
    | Invalid(errors: FieldErrors)
    | Transport(reason: string)
    | Decode(reason: string)

  /** An endpoint's effect: the request it sent, if any, and its outcome. */
  datatype Call<T> = Call(sent: Option<Request>, outcome: Result<T, ClientError>)

  /** The outcome of an exchange whose status code is not inspected: the
      transport's error, else the decoder's error, else the decoded body. */
  function Delivered<T>(resp: Response<T>): (r: Result<T, ClientError>)
    ensures r.Ok? <==> resp.Received? && resp.decodeError.None?
    ensures r.Ok? ==> r.value == resp.decoded
    ensures resp.TransportFailure? ==> r == Err(Transport(resp.reason))
    ensures resp.Received? && resp.decodeError.Some? ==> r == Err(Decode(resp.decodeError.value))
  {
    match resp
    case TransportFailure(reason) => Err(Transport(reason))
    case Received(_, decoded, None) => Ok(decoded)
    case Received(_, _, Some(e)) => Err(Decode(e))
  }

  /** An exchange whose status code is compared with `codes` first: any of
      them yields the sentinel error, whatever the decoder reported. */
  function StatusChecked<T>(resp: Response<T>, codes: set<int>, sentinel: SentinelError): (r: Result<T, ClientError>)
    ensures r == Err(Sentinel(sentinel)) <==> resp.Received? && resp.status in codes
    ensures !(resp.Received? && resp.status in codes) ==> r == Delivered(resp)
  {
    if resp.Received? && resp.status in codes then Err(Sentinel(sentinel)) else Delivered(resp)
  }

  // ---------------------------------------------------------------------------
  // Parameter normalisation

  /** The page of the collection and transaction listings: any page below 1 becomes 1. */
  function NormalisePage(page: int): (r: int)
    ensures r >= 1
    ensures page >= 1 ==> r == page
    ensures page < 1 ==> r == 1
  {
    if page <= 0 then 1 else page
  }

  /** The page of the open-collection listing: only 0 becomes 1. */
  function NormaliseOpenCollectionPage(page: int): (r: int)
    ensures page != 0 ==> r == page
    ensures page == 0 ==> r == 1
  {
    if page == 0 then 1 else page
  }

  /** The two page rules agree on every non-negative page and differ on every
      negative one, which the open-collection listing sends unchanged. */
  lemma PageRulesCompared(page: int)
    ensures page >= 0 ==> NormalisePage(page) == NormaliseOpenCollectionPage(page)
    ensures page < 0 ==> NormalisePage(page) == 1 && NormaliseOpenCollectionPage(page) == page
  {
  }

  /** Normalising a page twice changes nothing. */
  lemma NormalisePageIdempotent(page: int)
    ensures NormalisePage(NormalisePage(page)) == NormalisePage(page)
    ensures NormaliseOpenCollectionPage(NormaliseOpenCollectionPage(page)) == NormaliseOpenCollectionPage(page)
  {
  }

  const CollectionStatuses: set<string> := {"active", "inactive"}

  const TransactionStatuses: set<string> := {"pending", "completed", "failed"}

  /** A status filter: kept when allowed, otherwise the empty "no filter". */
  function StatusFilter(status: string, allowed: set<string>): (r: string)
    ensures r == "" || r in allowed
    ensures status in allowed ==> r == status
    ensures status !in allowed ==> r == ""
  {
    if status in allowed then status else ""
  }

  /** The listing filter of collections and open collections. */
  function CollectionStatusFilter(status: string): (r: string)
    ensures r in {"", "active", "inactive"}
    ensures r == status <==> status in {"", "active", "inactive"}
  {
    StatusFilter(status, CollectionStatuses)
  }

  /** The listing filter of a bill's transactions. */
  function TransactionStatusFilter(status: string): (r: string)
    ensures r in {"", "pending", "completed", "failed"}
    ensures r == status <==> status in {"", "pending", "completed", "failed"}
  {
    StatusFilter(status, TransactionStatuses)
  }

  /** Filtering a status twice changes nothing. */
  lemma StatusFilterIdempotent(status: string, allowed: set<string>)
    ensures StatusFilter(StatusFilter(status, allowed), allowed) == StatusFilter(status, allowed)
  {
  }

  /** The status query parameter: set only for a non-empty filter. */
  function StatusQuery(status: string): (r: Option<string>)
    ensures r.None? <==> status == ""
    ensures r.Some? ==> r.value == status
  {
    if status == "" then None else Some(status)
  }

  /** The query of a listing that carries a page and a status filter. */
  function ListingQuery(page: int, status: string): Query {
    Query(Some(page), StatusQuery(status), [])
  }

  /** The account numbers added to the query by a loop over `numbers` that
      stops after index 9, continued from `index` with `sent` added so far. */
  function AddAccountNumbers(numbers: seq<string>, index: nat, sent: seq<string>): (r: seq<string>)
    requires index <= |numbers| && index <= 10
    requires sent == numbers[..index]
    ensures |numbers| <= 10 ==> r == numbers
    ensures |numbers| > 10 ==> r == numbers[..10]
    decreases |numbers| - index
  {
    if index == |numbers| then sent
    else if index > 9 then sent
    else AddAccountNumbers(numbers, index + 1, sent + [numbers[index]])
  }

  /** The account numbers a bank-account listing sends: the first ten, in order. */
  function AccountNumbersSent(numbers: seq<string>): (r: seq<string>)
    ensures |r| == if |numbers| < 10 then |numbers| else 10
    ensures r <= numbers
  {
    AddAccountNumbers(numbers, 0, [])
  }

  /** The payment methods an update sends, built by appending one method per
      code, continued from `index` with `built` appended so far. */
  function AppendMethods(codes: seq<string>, index: nat, built: seq<PaymentMethod>): (r: seq<PaymentMethod>)
    requires index <= |codes| && |built| == index
    requires forall i | 0 <= i < index :: built[i] == PaymentMethod(codes[i], "", false)
    ensures |r| == |codes|
    ensures forall i | 0 <= i < |codes| :: r[i] == PaymentMethod(codes[i], "", false)
    decreases |codes| - index
  {
    if index == |codes| then built
    else AppendMethods(codes, index + 1, built + [PaymentMethod(codes[index], "", false)])
  }

  /** One method per code, in order, each with only its code set. */
  function MethodsFor(codes: seq<string>): (r: seq<PaymentMethod>)
    ensures |r| == |codes|
    ensures forall i | 0 <= i < |codes| :: r[i].code == codes[i] && r[i].name == "" && !r[i].active
  {
    AppendMethods(codes, 0, [])
  }

  /** The codes of a list of payment methods. */
  function Codes(methods: seq<PaymentMethod>): (r: seq<string>)
    ensures |r| == |methods|
    ensures forall i | 0 <= i < |methods| :: r[i] == methods[i].code
  {
    if methods == [] then [] else [methods[0].code] + Codes(methods[1..])
  }

  /** The update sends exactly the given codes back, in order. */
  lemma MethodsForCodes(codes: seq<string>)
    ensures Codes(MethodsFor(codes)) == codes
  {
  }

  /** A collection with a missing split payment given the empty one. */
  function WithDefaultSplitPayment(c: Collection): (r: Collection)
    ensures r.splitPayment.Some?
    ensures c.splitPayment.Some? ==> r == c
    ensures c.splitPayment.None? ==> r == c.(splitPayment := Some(EmptySplitPayment))
  {
    if c.splitPayment.None? then c.(splitPayment := Some(EmptySplitPayment)) else c
  }

  /** An open collection with a missing split payment given the empty one. */
  function OpenWithDefaultSplitPayment(o: OpenCollection): (r: OpenCollection)
    ensures r.splitPayment.Some?
    ensures o.splitPayment.Some? ==> r == o
    ensures o.splitPayment.None? ==> r == o.(splitPayment := Some(EmptySplitPayment))
  {
    if o.splitPayment.None? then o.(splitPayment := Some(EmptySplitPayment)) else o
  }

  // ---------------------------------------------------------------------------
  // Collections

  /** Creating a collection: a missing split payment is defaulted, the result
      validated, and only a valid collection is sent. */
  function CreateCollection(c: Collection, f: Formats, resp: Response<Collection>): (r: Call<Collection>)
    ensures var c' := WithDefaultSplitPayment(c);
            && (r.sent.None? <==> CollectionValidate(c', f) != map[])
            && (r.sent.None? ==> r.outcome == Err(Invalid(CollectionValidate(c', f))))
            && (r.sent.Some? ==> r.sent.value == Request(Post, "/collections", NoQuery, CollectionBody(c'))
                                 && r.outcome == Delivered(resp))
  {
    var c' := WithDefaultSplitPayment(c);
    var errors := CollectionValidate(c', f);
    if errors != map[] then Call(None, Err(Invalid(errors)))
    else Call(Some(Request(Post, "/collections", NoQuery, CollectionBody(c'))), Delivered(resp))
  }

  /** A collection without a split payment is sent exactly when its title is
      set: the substituted split payment never fails. */
  lemma CreateCollectionWithoutSplitPayment(c: Collection, f: Formats, resp: Response<Collection>)
    requires c.splitPayment.None?
    ensures CreateCollection(c, f, resp).sent.Some? <==> c.title != ""
  {
    CollectionValidIff(WithDefaultSplitPayment(c), f);
  }

  /** Fetching one collection: 404 is reported as a missing collection. */
  function GetCollection(id: string, resp: Response<Collection>): (r: Call<Collection>)
    ensures r.sent == Some(Request(Get, "/collections/" + id, NoQuery, NoBody))
    ensures r.outcome == Err(Sentinel(CollectionNotFound)) <==> resp.Received? && resp.status == 404
    ensures !(resp.Received? && resp.status == 404) ==> r.outcome == Delivered(resp)
  {
    Call(Some(Request(Get, "/collections/" + id, NoQuery, NoBody)), StatusChecked(resp, {404}, CollectionNotFound))
  }

  /** Listing collections: the page and status are normalised first and the
      status is sent only when it survives the filter. */
  function GetCollectionIndex(page: int, status: string, resp: Response<CollectionIndexResult>)
    : (r: Call<CollectionIndexResult>)
    ensures r.sent.Some? && r.sent.value.verb == Get && r.sent.value.path == "/collections"
    ensures r.sent.value.query.page == Some(if page <= 0 then 1 else page)
    ensures r.sent.value.query.status == (if status in {"active", "inactive"} then Some(status) else None)
    ensures r.sent.value.query.accountNumbers == [] && r.sent.value.body == NoBody
    ensures r.outcome == Delivered(resp)
  {
    var query := ListingQuery(NormalisePage(page), CollectionStatusFilter(status));
    Call(Some(Request(Get, "/collections", query, NoBody)), Delivered(resp))
  }

  /** Creating an open collection: a missing split payment is defaulted, the
      result validated, and only a valid open collection is sent. */
  function CreateOpenCollection(o: OpenCollection, f: Formats, resp: Response<OpenCollection>): (r: Call<OpenCollection>)
    ensures var o' := OpenWithDefaultSplitPayment(o);
            && (r.sent.None? <==> OpenCollectionValidate(o', f) != map[])
            && (r.sent.None? ==> r.outcome == Err(Invalid(OpenCollectionValidate(o', f))))
            && (r.sent.Some? ==> r.sent.value == Request(Post, "/open_collections", NoQuery, OpenCollectionBody(o'))
                                 && r.outcome == Delivered(resp))
  {
    var o' := OpenWithDefaultSplitPayment(o);
    var errors := OpenCollectionValidate(o', f);
    if errors != map[] then Call(None, Err(Invalid(errors)))
    else Call(Some(Request(Post, "/open_collections", NoQuery, OpenCollectionBody(o'))), Delivered(resp))
  }

  /** An open collection without a split payment is never rejected on that
      field. */
  lemma CreateOpenCollectionWithoutSplitPayment(o: OpenCollection, f: Formats, resp: Response<OpenCollection>)
    requires o.splitPayment.None?
    ensures var r := CreateOpenCollection(o, f, resp);
            r.outcome.Err? && r.outcome.error.Invalid? ==> SplitPaymentField !in r.outcome.error.errors
  {
  }

  /** Fetching one open collection: 404 is reported as a missing collection. */
  function GetOpenCollection(id: string, resp: Response<OpenCollection>): (r: Call<OpenCollection>)
    ensures r.sent == Some(Request(Get, "/open_collections/" + id, NoQuery, NoBody))
    ensures r.outcome == Err(Sentinel(CollectionNotFound)) <==> resp.Received? && resp.status == 404
    ensures !(resp.Received? && resp.status == 404) ==> r.outcome == Delivered(resp)
  {
    Call(Some(Request(Get, "/open_collections/" + id, NoQuery, NoBody)), StatusChecked(resp, {404}, CollectionNotFound))
  }

  /** Listing open collections: only page 0 is replaced, so a negative page is
      sent as given; the status is filtered as for collections. */
  function GetOpenCollectionIndex(page: int, status: string, resp: Response<OpenCollectionIndexResult>)
    : (r: Call<OpenCollectionIndexResult>)
    ensures r.sent.Some? && r.sent.value.verb == Get && r.sent.value.path == "/open_collections"
    ensures r.sent.value.query.page == Some(if page == 0 then 1 else page)
    ensures r.sent.value.query.status == (if status in {"active", "inactive"} then Some(status) else None)
    ensures r.sent.value.query.accountNumbers == [] && r.sent.value.body == NoBody
    ensures r.outcome == Delivered(resp)
  {
    var query := ListingQuery(NormaliseOpenCollectionPage(page), CollectionStatusFilter(status));
    Call(Some(Request(Get, "/open_collections", query, NoBody)), Delivered(resp))
  }

  /** Deactivating a collection: 422 is reported as refused; every other
      status succeeds, even when the body could not be decoded. */
  function DeactivateCollection(id: string, resp: Response<()>): (r: Call<()>)
    ensures r.sent == Some(Request(Post, "/collections/" + id + "/deactivate", NoQuery, NoBody))
    ensures resp.Received? && resp.status == 422 ==> r.outcome == Err(Sentinel(CannotDeactivateCollection))
    ensures resp.Received? && resp.status != 422 ==> r.outcome == Ok(())
    ensures resp.TransportFailure? ==> r.outcome == Err(Transport(resp.reason))
  {
    var outcome := match resp
      case TransportFailure(reason) => Err(Transport(reason))
      case Received(status, _, _) => if status == 422 then Err(Sentinel(CannotDeactivateCollection)) else Ok(());
    Call(Some(Request(Post, "/collections/" + id + "/deactivate", NoQuery, NoBody)), outcome)
  }

  /** Activating a collection: 422 is reported as refused; every other status
      succeeds, even when the body could not be decoded. */
  function ActivateCollection(id: string, resp: Response<()>): (r: Call<()>)
    ensures r.sent == Some(Request(Post, "/collections/" + id + "/activate", NoQuery, NoBody))
    ensures resp.Received? && resp.status == 422 ==> r.outcome == Err(Sentinel(CannotActivateCollection))
    ensures resp.Received? && resp.status != 422 ==> r.outcome == Ok(())
    ensures resp.TransportFailure? ==> r.outcome == Err(Transport(resp.reason))
  {
    var outcome := match resp
      case TransportFailure(reason) => Err(Transport(reason))
      case Received(status, _, _) => if status == 422 then Err(Sentinel(CannotActivateCollection)) else Ok(());
    Call(Some(Request(Post, "/collections/" + id + "/activate", NoQuery, NoBody)), outcome)
  }

  /** A decode error never reaches the caller of activation or deactivation. */
  lemma ActivationIgnoresDecodeErrors(id: string, status: int, e: string)
    ensures ActivateCollection(id, Received(status, (), Some(e))).outcome
         == ActivateCollection(id, Received(status, (), None)).outcome
    ensures DeactivateCollection(id, Received(status, (), Some(e))).outcome
         == DeactivateCollection(id, Received(status, (), None)).outcome
  {
  }

  // ---------------------------------------------------------------------------
  // Bills

  /** Creating a bill: only a valid bill is sent. */
  function CreateBill(b: Bill, f: Formats, resp: Response<Bill>): (r: Call<Bill>)
    ensures r.sent.None? <==> !BillAllRulesPass(b, f)
    ensures r.sent.None? ==> r.outcome == Err(Invalid(BillValidate(b, f)))
    ensures r.sent.Some? ==> r.sent.value == Request(Post, "/bills", NoQuery, BillBody(b)) && r.outcome == Delivered(resp)
  {
    BillValidIff(b, f);
    var errors := BillValidate(b, f);
    if errors != map[] then Call(None, Err(Invalid(errors)))
    else Call(Some(Request(Post, "/bills", NoQuery, BillBody(b))), Delivered(resp))
  }

  /** Fetching one bill: 404 is reported as a missing bill. */
  function GetBill(id: string, resp: Response<Bill>): (r: Call<Bill>)
    ensures r.sent == Some(Request(Get, "/bills/" + id, NoQuery, NoBody))
    ensures r.outcome == Err(Sentinel(BillNotFound)) <==> resp.Received? && resp.status == 404
    ensures !(resp.Received? && resp.status == 404) ==> r.outcome == Delivered(resp)
  {
    Call(Some(Request(Get, "/bills/" + id, NoQuery, NoBody)), StatusChecked(resp, {404}, BillNotFound))
  }

  /** Deleting a bill: 404 is reported as a missing bill; otherwise the
      transport's or decoder's error, if any. */
  function DeleteBill(id: string, resp: Response<()>): (r: Call<()>)
    ensures r.sent == Some(Request(Delete, "/bills/" + id, NoQuery, NoBody))
    ensures r.outcome == Err(Sentinel(BillNotFound)) <==> resp.Received? && resp.status == 404
    ensures !(resp.Received? && resp.status == 404) ==> r.outcome == Delivered(resp)
  {
    Call(Some(Request(Delete, "/bills/" + id, NoQuery, NoBody)), StatusChecked(resp, {404}, BillNotFound))
  }

  /** Listing a bill's transactions: the page and status are normalised first
      and the status is sent only when it survives the filter. */
  function GetBillTransactions(id: string, page: int, status: string, resp: Response<BillTransactions>)
    : (r: Call<BillTransactions>)
    ensures r.sent.Some? && r.sent.value.verb == Get && r.sent.value.path == "/bills/" + id + "/transactions"
    ensures r.sent.value.query.page == Some(if page <= 0 then 1 else page)
    ensures r.sent.value.query.status
         == (if status in {"pending", "completed", "failed"} then Some(status) else None)
    ensures r.sent.value.query.accountNumbers == [] && r.sent.value.body == NoBody
    ensures r.outcome == Delivered(resp)
  {
    var query := ListingQuery(NormalisePage(page), TransactionStatusFilter(status));
    Call(Some(Request(Get, "/bills/" + id + "/transactions", query, NoBody)), Delivered(resp))
  }

  // ---------------------------------------------------------------------------
  // Bank accounts

  /** Checking an account number's registration: a failed exchange is passed
      on; otherwise the name "verified" means registered, "unverified" means
      not registered, and any other name means the account is unknown. */
  function CheckRegistration(accountNumber: string, resp: Response<BankAccountCheckResponse>): (r: Call<bool>)
    ensures r.sent == Some(Request(Get, "/check/bank_account_number/" + accountNumber, NoQuery, NoBody))
    ensures Delivered(resp).Err? ==> r.outcome == Err(Delivered(resp).error)
    ensures Delivered(resp).Ok? && resp.decoded.name == "verified" ==> r.outcome == Ok(true)
    ensures Delivered(resp).Ok? && resp.decoded.name == "unverified" ==> r.outcome == Ok(false)
    ensures Delivered(resp).Ok? && resp.decoded.name !in {"verified", "unverified"}
            ==> r.outcome == Err(Sentinel(BankAccountNotFound))
  {
    var outcome := match Delivered(resp)
      case Err(e) => Err(e)
      case Ok(result) =>
        if result.name == "verified" then Ok(true)
        else if result.name == "unverified" then Ok(false)
        else Err(Sentinel(BankAccountNotFound));
    Call(Some(Request(Get, "/check/bank_account_number/" + accountNumber, NoQuery, NoBody)), outcome)
  }

  /** The registration check never looks at the status code. */
  lemma CheckRegistrationIgnoresStatus(
    accountNumber: string, s1: int, s2: int, decoded: BankAccountCheckResponse, e: Option<string>)
    ensures CheckRegistration(accountNumber, Received(s1, decoded, e))
         == CheckRegistration(accountNumber, Received(s2, decoded, e))
  {
  }

  /** Listing bank accounts: at most the first ten account numbers are sent,
      in order; 422 and 401 both mean the admin setting is off. */
  function GetBankAccountIndex(accountNumbers: seq<string>, resp: Response<BankAccountList>): (r: Call<BankAccountList>)
    ensures r.sent.Some? && r.sent.value.verb == Get && r.sent.value.path == "/bank_verification_services"
    ensures r.sent.value.query.accountNumbers
         == accountNumbers[..if |accountNumbers| < 10 then |accountNumbers| else 10]
    ensures r.sent.value.query.page.None? && r.sent.value.query.status.None? && r.sent.value.body == NoBody
    ensures r.outcome == Err(Sentinel(AdminPrivilegeRequired)) <==> resp.Received? && resp.status in {401, 422}
    ensures !(resp.Received? && resp.status in {401, 422}) ==> r.outcome == Delivered(resp)
  {
    var query := NoQuery.(accountNumbers := AccountNumbersSent(accountNumbers));
    Call(Some(Request(Get, "/bank_verification_services", query, NoBody)),
         StatusChecked(resp, {422, 401}, AdminPrivilegeRequired))
  }

  /** Fetching one bank account: only 422 means the admin setting is off. */
  function GetBankAccount(accountNumber: string, resp: Response<BankAccount>): (r: Call<BankAccount>)
    ensures r.sent == Some(Request(Get, "/bank_verification_services/" + accountNumber, NoQuery, NoBody))
    ensures r.outcome == Err(Sentinel(AdminPrivilegeRequired)) <==> resp.Received? && resp.status == 422
    ensures !(resp.Received? && resp.status == 422) ==> r.outcome == Delivered(resp)
  {
    Call(Some(Request(Get, "/bank_verification_services/" + accountNumber, NoQuery, NoBody)),
         StatusChecked(resp, {422}, AdminPrivilegeRequired))
  }

  /** Registering a bank account: only a valid account is sent; 422 and 401
      both mean the admin setting is off. */
  function CreateBankAccount(b: BankAccount, f: Formats, resp: Response<BankAccount>): (r: Call<BankAccount>)
    ensures r.sent.None? <==> b.name == "" || b.idNo == "" || b.accountNumber == "" || b.code == ""
    ensures r.sent.None? ==> r.outcome == Err(Invalid(BankAccountValidate(b, f)))
    ensures r.sent.Some? ==> r.sent.value == Request(Post, "/bank_verification_services", NoQuery, BankAccountBody(b))
    ensures r.sent.Some? ==>
              && (r.outcome == Err(Sentinel(AdminPrivilegeRequired)) <==> resp.Received? && resp.status in {401, 422})
              && (!(resp.Received? && resp.status in {401, 422}) ==> r.outcome == Delivered(resp))
  {
    BankAccountValidIff(b, f);
    var errors := BankAccountValidate(b, f);
    if errors != map[] then Call(None, Err(Invalid(errors)))
    else Call(Some(Request(Post, "/bank_verification_services", NoQuery, BankAccountBody(b))),
              StatusChecked(resp, {422, 401}, AdminPrivilegeRequired))
  }

  // ---------------------------------------------------------------------------
  // Payment methods

  /** Listing a collection's payment methods: the decoded list, which may be absent. */
  function GetPaymentMethodIndex(id: string, resp: Response<PaymentMethodList>)
    : (r: Call<Option<seq<PaymentMethod>>>)
    ensures r.sent == Some(Request(Get, "/collections/" + id + "/payment_methods", NoQuery, NoBody))
    ensures r.outcome.Ok? <==> Delivered(resp).Ok?
    ensures r.outcome.Ok? ==> r.outcome.value == resp.decoded.paymentMethods
    ensures r.outcome.Err? ==> r.outcome.error == Delivered(resp).error
  {
    Call(Some(Request(Get, "/collections/" + id + "/payment_methods", NoQuery, NoBody)),
         Delivered(resp).MapOk((l: PaymentMethodList) => l.paymentMethods))
  }

  /** Enabling payment methods: one method per code is sent, in order, each
      carrying only its code. */
  function UpdatePaymentMethods(id: string, codes: seq<string>, resp: Response<PaymentMethodList>)
    : (r: Call<Option<seq<PaymentMethod>>>)
    ensures r.sent.Some? && r.sent.value.verb == Put
    ensures r.sent.value.path == "/collections/" + id + "/payment_methods" && r.sent.value.query == NoQuery
    ensures r.sent.value.body.PaymentMethodsBody? && r.sent.value.body.list.paymentMethods.Some?
    ensures var sent := r.sent.value.body.list.paymentMethods.value;
            |sent| == |codes| && forall i | 0 <= i < |codes| :: sent[i] == PaymentMethod(codes[i], "", false)
    ensures r.outcome.Ok? <==> Delivered(resp).Ok?
    ensures r.outcome.Ok? ==> r.outcome.value == resp.decoded.paymentMethods
    ensures r.outcome.Err? ==> r.outcome.error == Delivered(resp).error
  {
    var body := PaymentMethodsBody(PaymentMethodList(Some(MethodsFor(codes))));
    Call(Some(Request(Put, "/collections/" + id + "/payment_methods", NoQuery, body)),
         Delivered(resp).MapOk((l: PaymentMethodList) => l.paymentMethods))
  }

  /** The invalid-key sentinel is declared but no collection endpoint reports it. */
  lemma CollectionEndpointsNeverUnauthorized(
    id: string, page: int, status: string, f: Formats, c: Collection, o: OpenCollection,
    rc: Response<Collection>, rci: Response<CollectionIndexResult>,
    ro: Response<OpenCollection>, roi: Response<OpenCollectionIndexResult>, ru: Response<()>)
    ensures var e := Sentinel(Unauthorized);
      && CreateCollection(c, f, rc).outcome != Err(e)
      && GetCollection(id, rc).outcome != Err(e)
      && GetCollectionIndex(page, status, rci).outcome != Err(e)
      && CreateOpenCollection(o, f, ro).outcome != Err(e)
      && GetOpenCollection(id, ro).outcome != Err(e)
      && GetOpenCollectionIndex(page, status, roi).outcome != Err(e)
      && DeactivateCollection(id, ru).outcome != Err(e)
      && ActivateCollection(id, ru).outcome != Err(e)
  {
  }

  /** Nor does any bill or payment-method endpoint. */
  lemma BillEndpointsNeverUnauthorized(
    id: string, page: int, status: string, f: Formats, codes: seq<string>, b: Bill,
    rb: Response<Bill>, ru: Response<()>, rt: Response<BillTransactions>, rp: Response<PaymentMethodList>)
    ensures var e := Sentinel(Unauthorized);
      && CreateBill(b, f, rb).outcome != Err(e)
      && GetBill(id, rb).outcome != Err(e)
      && DeleteBill(id, ru).outcome != Err(e)
      && GetBillTransactions(id, page, status, rt).outcome != Err(e)
      && GetPaymentMethodIndex(id, rp).outcome != Err(e)
      && UpdatePaymentMethods(id, codes, rp).outcome != Err(e)
  {
  }

  /** Nor does any bank-account endpoint: a 401 there means the admin
      setting is off. */
  lemma BankAccountEndpointsNeverUnauthorized(
    id: string, f: Formats, numbers: seq<string>, a: BankAccount,
    rr: Response<BankAccountCheckResponse>, rl: Response<BankAccountList>, ra: Response<BankAccount>)
    ensures var e := Sentinel(Unauthorized);
      && CheckRegistration(id, rr).outcome != Err(e)
      && GetBankAccountIndex(numbers, rl).outcome != Err(e)
      && GetBankAccount(id, ra).outcome != Err(e)
      && CreateBankAccount(a, f, ra).outcome != Err(e)
  {
  }
}
