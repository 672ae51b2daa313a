/** Bank accounts registered through the direct verification service, and
    the check run before one is submitted. */
module BankAccounts {
  import opened Wrappers
  import opened Validation

  datatype BankAccount = BankAccount(
    name: string,
    idNo: string,
    accountNumber: string,
    code: string,
    organization: bool,
    authorizationDate: string,
    status: string,
    processedAt: string,
    rejectDescription: string)

  /** The body of a registration check. */
  datatype BankAccountCheckResponse = BankAccountCheckResponse(name: string)

  /** The body of a bank-account listing. */
  datatype BankAccountList = BankAccountList(bankAccounts: Option<seq<BankAccount>>)

  /** The fields a bank account's validator checks, all with `Required` alone. */
  const BankAccountFields: set<Field> := {Name, IdNo, AccNo, Code}

  /** The outcome of the `Required` rule on field `k` of a bank account. */
  function BankAccountRule(b: BankAccount, f: Formats, k: Field): Option<FieldError> {
    match k
    case Name => CheckRequired(b.name, f)
    case IdNo => CheckRequired(b.idNo, f)
    case AccNo => CheckRequired(b.accountNumber, f)
    case Code => CheckRequired(b.code, f)
    case _ => None
  }

  /** Field `k` is rejected exactly when it is one of the four checked fields
      and is empty; the bank code is never compared with the known codes. */
  predicate BankAccountFieldFails(b: BankAccount, k: Field) {
    match k
    case Name => b.name == ""
    case IdNo => b.idNo == ""
    case AccNo => b.accountNumber == ""
    case Code => b.code == ""
    case _ => false
  }

  /** The aggregated error names exactly the empty required fields, each as blank. */
  function BankAccountValidate(b: BankAccount, f: Formats): (r: FieldErrors)
    ensures forall k :: k in r <==> BankAccountFieldFails(b, k)
    ensures forall k | k in r :: r[k] == Failed(Blank)
  {
    var entries := map k | k in BankAccountFields :: BankAccountRule(b, f, k);
    forall k
      ensures k in entries && entries[k].Some? <==> BankAccountFieldFails(b, k)
      ensures k in entries && entries[k].Some? ==> entries[k].value == Failed(Blank)
    {
    }
    Filter(entries)
  }

  /** A bank account passes exactly when name, identity number, account
      number and bank code are all non-empty. */
  lemma BankAccountValidIff(b: BankAccount, f: Formats)
    ensures BankAccountValidate(b, f) == map[]
        <==> b.name != "" && b.idNo != "" && b.accountNumber != "" && b.code != ""
  {
    var r := BankAccountValidate(b, f);
    if r == map[] {
      assert Name !in r && IdNo !in r && AccNo !in r && Code !in r;
    } else {
      var k :| k in r;
      assert BankAccountFieldFails(b, k);
    }
  }

  /** Any non-empty bank code is accepted, whether or not it names a known bank. */
  lemma AnyBankCodeAccepted(b: BankAccount, code: string, f: Formats)
    requires code != ""
    ensures Code !in BankAccountValidate(b.(code := code), f)
    ensures BankAccountValidate(b.(code := code), f) == BankAccountValidate(b.(code := "x"), f)
  {
    var r, r' := BankAccountValidate(b.(code := code), f), BankAccountValidate(b.(code := "x"), f);
    forall k ensures BankAccountFieldFails(b.(code := code), k) == BankAccountFieldFails(b.(code := "x"), k) {
    }
    assert r.Keys == r'.Keys;
  }

  /** The organisation flag, authorisation date, status, processing time and
      rejection reason never change the result. */
  lemma BankAccountIgnoresUnlistedFields(
    b: BankAccount, f: Formats,
    organization: bool, authorizationDate: string, status: string, processedAt: string, rejectDescription: string)
    ensures BankAccountValidate(b, f)
         == BankAccountValidate(b.(organization := organization, authorizationDate := authorizationDate,
                                   status := status, processedAt := processedAt,
                                   rejectDescription := rejectDescription), f)
  {
    var b' := b.(organization := organization, authorizationDate := authorizationDate,
                 status := status, processedAt := processedAt, rejectDescription := rejectDescription);
    var r, r' := BankAccountValidate(b, f), BankAccountValidate(b', f);
    forall k ensures BankAccountFieldFails(b, k) == BankAccountFieldFails(b', k) {
    }
    assert r.Keys == r'.Keys;
  }

  /** Keyed by JSON name as the library reports it, the error names "name",
      "id_no", "acc_no" and "code" exactly for the empty fields. */
  lemma BankAccountJsonKeys(b: BankAccount, f: Formats)
    ensures var keys := JsonKeyed(BankAccountValidate(b, f)).Keys;
      && ("name" in keys <==> b.name == "")
      && ("id_no" in keys <==> b.idNo == "")
      && ("acc_no" in keys <==> b.accountNumber == "")
      && ("code" in keys <==> b.code == "")
  {
    var e := BankAccountValidate(b, f);
    assert JsonName(Name) == "name" && JsonName(IdNo) == "id_no";
    assert JsonName(AccNo) == "acc_no" && JsonName(Code) == "code";
    assert Name in e <==> b.name == "";
    assert IdNo in e <==> b.idNo == "";
    assert AccNo in e <==> b.accountNumber == "";
    assert Code in e <==> b.code == "";
  }

  /** No other JSON name ever appears in a bank account's error. */
  lemma BankAccountJsonKeysOnly(b: BankAccount, f: Formats)
    ensures JsonKeyed(BankAccountValidate(b, f)).Keys <= {"name", "id_no", "acc_no", "code"}
  {
    var e := BankAccountValidate(b, f);
    var r := JsonKeyed(e);
    forall name | name in r ensures name in {"name", "id_no", "acc_no", "code"} {
      var k :| k in e && JsonName(k) == name;
      assert BankAccountFieldFails(b, k);
      match k
      case Name =>
      case IdNo =>
      case AccNo =>
      case Code =>
      case _ =>
    }
  }
}
