/**
 * The tenant assignment form: six fields, a submit that appends one record to
 * the stored `tenants` list, and a reset of the form afterwards.
 */
module Assignment {
  import opened Options
  import opened Storage
  import opened Tenants

  /** The two values the rent plan selector offers. */
  predicate IsRentPlan(plan: string) {
    plan == "1month" || plan == "2month"
  }

  /** The two values the grace period selector offers. */
  predicate IsGracePeriod(grace: string) {
    grace == "7" || grace == "14"
  }

  /** The record a submit pushes: the six form fields and no other field. */
  function AssignedRecord(name: string, phone: string, rent: string, startDate: string,
                          rentPlan: string, gracePeriod: string): (s: StoredTenant)
    ensures s.name == name && s.phone == phone && s.rent == rent
    ensures s.startDate == startDate && s.rentPlan == rentPlan && s.gracePeriod == gracePeriod
    ensures s.emergencyContact.None? && s.emergencyPhone.None?
    ensures s.transactions.None? && s.power.None?
  {
    StoredTenant(name, phone, rent, startDate, rentPlan, gracePeriod, None, None, None, None)
  }

  /**
   * A freshly submitted tenant first gets its emergency contact, empty payment
   * history and power flag when the tenant list view loads it.
   */
  lemma AssignedTenantLoadsWithDefaults(name: string, phone: string, rent: string, startDate: string,
                                        rentPlan: string, gracePeriod: string)
    ensures LoadTenant(AssignedRecord(name, phone, rent, startDate, rentPlan, gracePeriod))
         == Tenant(name, phone, rent, startDate, rentPlan, gracePeriod,
                   DefaultEmergencyContact, DefaultEmergencyPhone, [], true)
  {
  }

  /** The component: its six form fields and the shared store. */
  class AssignTenant {
    const storage: LocalStorage
    var name: string
    var phone: string
    var rent: string
    var startDate: string
    var rentPlan: string
    var gracePeriod: string

    ghost predicate Valid()
      reads this
    {
      IsRentPlan(rentPlan) && IsGracePeriod(gracePeriod)
    }

    /** The form as first shown, and as left after a successful submit. */
    ghost predicate IsReset()
      reads this
    {
      name == "" && phone == "" && rent == "" && startDate == ""
      && rentPlan == "1month" && gracePeriod == "7"
    }

    constructor(storage: LocalStorage)
      ensures this.storage == storage
      ensures IsReset() && Valid()
    {
      this.storage := storage;
      name, phone, rent, startDate := "", "", "", "";
      rentPlan, gracePeriod := "1month", "7";
    }

    method SetName(v: string)
      modifies this`name
      ensures name == v
    {
      name := v;
    }

    method SetPhone(v: string)
      modifies this`phone
      ensures phone == v
    {
      phone := v;
    }

    method SetRent(v: string)
      modifies this`rent
      ensures rent == v
    {
      rent := v;
    }

    method SetStartDate(v: string)
      modifies this`startDate
      ensures startDate == v
    {
      startDate := v;
    }

    /** Picking an option of the rent plan selector. */
    method SetRentPlan(v: string)
      requires Valid()
      requires IsRentPlan(v)
      modifies this`rentPlan
      ensures Valid() && rentPlan == v
    {
      rentPlan := v;
    }

    /** Picking an option of the grace period selector. */
    method SetGracePeriod(v: string)
      requires Valid()
      requires IsGracePeriod(v)
      modifies this`gracePeriod
      ensures Valid() && gracePeriod == v
    {
      gracePeriod := v;
    }

    /**
     * `handleSubmit`: with any of name, phone, rent or start date empty nothing
     * changes; otherwise the record is appended to the stored list and the form reset.
     */
    method HandleSubmit() returns (submitted: bool)
      requires Valid()
      modifies this, storage`tenants
      ensures Valid()
      ensures submitted <==> old(name) != "" && old(phone) != "" && old(rent) != "" && old(startDate) != ""
      ensures !submitted ==> unchanged(this) && storage.tenants == old(storage.tenants)
      ensures submitted ==>
                storage.tenants == old(storage.tenants) + [AssignedRecord(old(name), old(phone), old(rent),
                                                                          old(startDate), old(rentPlan), old(gracePeriod))]
      ensures submitted ==> IsReset()
    {
      if name == "" || phone == "" || rent == "" || startDate == "" {
        return false;
      }
      storage.tenants := storage.tenants + [AssignedRecord(name, phone, rent, startDate, rentPlan, gracePeriod)];
      name := "";
      phone := "";
      rent := "";
      startDate := "";
      rentPlan := "1month";
      gracePeriod := "7";
      submitted := true;
    }
  }
}
