/** The sentinel errors of the client: fixed values that endpoints return in
    place of a decoded response for particular HTTP status codes. */
module Errors {
  import opened Wrappers


  datatype SentinelError =
    | CollectionNotFound
    | CannotDeactivateCollection
    | CannotActivateCollection
    | AdminPrivilegeRequired
    | Unauthorized
    | BillNotFound
    | BankAccountNotFound

  const Prefix: string := "billplz: "

  /** The text each sentinel error returns from `Error()`, which is what a
      caller prints or logs. */
  function Message(e: SentinelError): (m: string)
    ensures Prefix < m
  {
    match e
    case CollectionNotFound => "billplz: queried collection cannot be found"
    case CannotDeactivateCollection => "billplz: collection cannot be deactivated"
    case CannotActivateCollection => "billplz: collection cannot be activated"
    case AdminPrivilegeRequired => "billplz: admin privilege required"
    case Unauthorized => "billplz: invalid API authorization key"
    case BillNotFound => "billplz: bill not found"
    case BankAccountNotFound => "billplz: bank account not found"
  }

  /** The sentinel error whose message is `m`, if any. */
  function FromMessage(m: string): Option<SentinelError> {
    if m == Message(CollectionNotFound) then Some(CollectionNotFound)
    else if m == Message(CannotDeactivateCollection) then Some(CannotDeactivateCollection)
    else if m == Message(CannotActivateCollection) then Some(CannotActivateCollection)
    else if m == Message(AdminPrivilegeRequired) then Some(AdminPrivilegeRequired)
    else if m == Message(Unauthorized) then Some(Unauthorized)
    else if m == Message(BillNotFound) then Some(BillNotFound)
    else if m == Message(BankAccountNotFound) then Some(BankAccountNotFound)
    else None
  }

  /** A message identifies its sentinel error: no two errors share a text. */
  lemma MessageRoundTrip(e: SentinelError)
    ensures FromMessage(Message(e)) == Some(e)
  {
  }
}
