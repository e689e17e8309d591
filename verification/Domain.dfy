/** The rows, requests and errors shared by the money engine and the services around it. */
module Domain {

  /** A UUID in canonical form. Fixed-length lower-case hexadecimal strings sort as the numbers they spell,
      so the string order used for locking is the order of the naturals. */
  type Id = nat

  /** The empty string where an id was expected. */
  const NO_ID: Id := 0

  datatype Option<+T> = None | Some(value: T)

  datatype Result<+T> = Ok(value: T) | Err(error: Error)

  datatype AccountType = Wallet | MerchantPayable | PlatformRevenue

  /** Amounts are whole cents. `opening` is a history field: the balance the row was inserted with. */
  datatype Account = Account(tenant: Id, kind: AccountType, opening: int, balance: int, hold: int)

  datatype EntryType = TransferEntry | FeeEntry | HoldEntry | ReleaseEntry

  datatype Entry = Entry(tenant: Id, txn: Id, account: Id, amount: int, kind: EntryType)

  /** One outbox row per committed operation, with the payload the operation wrote. */
  datatype Event =
    | TransferCompleted(tenant: Id, txn: Id, sender: Id, receiver: Id, amount: int, fee: int)
    | HoldCreated(tenant: Id, txn: Id, account: Id, amount: int)
    | HoldCaptured(tenant: Id, txn: Id, holdId: Id, sender: Id, receiver: Id, captured: int, remainder: int)
    | HoldReleased(tenant: Id, txn: Id, holdId: Id, account: Id, released: int)

  /** A tenant's fee configuration: `fixed` in cents, `rate` in ten-thousandths. */
  datatype FeePlan = FeePlan(fixed: int, rate: int)

  datatype Db = Db(tenants: map<Id, FeePlan>, accounts: map<Id, Account>, ledger: seq<Entry>, outbox: seq<Event>)

  /** A call of the transfer service; `txn` is the random transaction id it draws. */
  datatype Request =
    | Transfer(tenant: Id, sender: Id, receiver: Id, amount: int, txn: Id)
    | Hold(tenant: Id, account: Id, amount: int, txn: Id)
    | Capture(tenant: Id, holdId: Id, receiver: Id, amount: int, txn: Id)
    | Release(tenant: Id, holdId: Id, amount: int, txn: Id)

  /** What finding or creating the platform revenue account yielded. */
  datatype Revenue = NoFee | Found(id: Id) | Opened(id: Id)

  datatype Error =
    | TenantRequired
    | FieldRequired
    | InvalidAmount
    | SameAccount
    | TenantNotFound
    | SenderNotFound
    | SenderOfOtherTenant
    | InsufficientFunds
    | ReceiverNotFound
    | ReceiverOfOtherTenant
    | AccountNotFound
    | AccountOfOtherTenant
    | InsufficientBalance
    | HoldNotFound
    | ExceedsHeldAmount
    | InsufficientHeld
    | InvalidOpening
    | SystemError

  lemma {:induction false} UnusedIdExists(used: set<Id>) returns (id: Id)
    ensures id !in used
    ensures forall x :: x in used ==> x < id
  {
    if used == {} {
      id := 0;
    } else {
      var x :| x in used;
      var y := UnusedIdExists(used - {x});
      id := if y > x then y else x + 1;
      assert forall z :: z in used ==> z == x || z in used - {x};
    }
  }
}
