/**
 * The browser's key-value store, with its JSON values decoded into typed records.
 * A missing key reads as the empty list (`getItem(key) || "[]"`), so an empty
 * sequence stands for both.
 */
module Storage {
  import opened Options

  /** One rent payment row: `{date, status, amount}`, all strings. */
  datatype Transaction = Transaction(date: string, status: string, amount: string)

  /**
   * A tenant record as it sits in the `tenants` key. Records written by the
   * assignment form carry only the first six fields; the others are `None`
   * (absent or null in the JSON).
   */
  datatype StoredTenant = StoredTenant(
    name: string,
    phone: string,
    rent: string,
    startDate: string,
    rentPlan: string,
    gracePeriod: string,
    emergencyContact: Option<string>,
    emergencyPhone: Option<string>,
    transactions: Option<seq<Transaction>>,
    power: Option<bool>)

  /** A registered account; the password is kept and compared in plain text. */
  datatype User = User(name: string, email: string, password: string, role: string)

  /** The two values the role selector offers. */
  predicate IsRole(role: string) {
    role == "landlord" || role == "admin"
  }

  /** No two stored accounts share an email address. */
  predicate DistinctEmails(users: seq<User>) {
    forall i, j :: 0 <= i < j < |users| ==> users[i].email != users[j].email
  }

  /** The `tenants`, `users` and `currentUser` keys of local storage. */
  class LocalStorage {
    var tenants: seq<StoredTenant>
    var users: seq<User>
    var currentUser: Option<User>

    ghost predicate Valid()
      reads this
    {
      DistinctEmails(users)
    }

    /** A fresh browser profile: every key is missing. */
    constructor()
      ensures tenants == [] && users == [] && currentUser == None
      ensures Valid()
    {
      tenants := [];
      users := [];
      currentUser := None;
    }
  }
}
