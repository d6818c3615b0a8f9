/**
 * The tenant list view: it loads the stored tenants once, filling in defaults
 * for fields older records lack, and after every change writes the whole
 * in-memory list back to the `tenants` key.
 */
module Tenants {
  import opened Options
  import opened Lists
  import opened Storage

  const DefaultEmergencyContact := "Wife"
  const DefaultEmergencyPhone := "+255747822160"

  /** The empty transaction draft the view starts with and returns to after an add. */
  const EmptyDraft := Transaction("", "Paid", "")

  /** The two values the transaction status selector offers. */
  predicate IsTxStatus(status: string) {
    status == "Paid" || status == "Overdue"
  }

  /** A tenant as the view holds it in memory: every optional field filled in. */
  datatype Tenant = Tenant(
    name: string,
    phone: string,
    rent: string,
    startDate: string,
    rentPlan: string,
    gracePeriod: string,
    emergencyContact: string,
    emergencyPhone: string,
    transactions: seq<Transaction>,
    power: bool)

  /** A tenant as loading leaves it: both emergency fields are non-empty. */
  predicate Loaded(t: Tenant) {
    t.emergencyContact != "" && t.emergencyPhone != ""
  }

  predicate AllLoaded(ts: seq<Tenant>) {
    forall k :: 0 <= k < |ts| ==> Loaded(ts[k])
  }

  /** JavaScript's `s || d` on an optional string: missing and empty both give `d`. */
  function OrElse(s: Option<string>, d: string): string {
    if s.Some? && s.value != "" then s.value else d
  }

  /** The defaults-on-load mapping applied to one stored record. */
  function LoadTenant(s: StoredTenant): (t: Tenant)
    ensures t.name == s.name && t.phone == s.phone && t.rent == s.rent
    ensures t.startDate == s.startDate && t.rentPlan == s.rentPlan && t.gracePeriod == s.gracePeriod
    ensures s.emergencyContact.Some? && s.emergencyContact.value != "" ==> t.emergencyContact == s.emergencyContact.value
    ensures s.emergencyContact == None || s.emergencyContact == Some("") ==> t.emergencyContact == DefaultEmergencyContact
    ensures s.emergencyPhone.Some? && s.emergencyPhone.value != "" ==> t.emergencyPhone == s.emergencyPhone.value
    ensures s.emergencyPhone == None || s.emergencyPhone == Some("") ==> t.emergencyPhone == DefaultEmergencyPhone
    ensures s.transactions.Some? ==> t.transactions == s.transactions.value
    ensures s.transactions.None? ==> t.transactions == []
    ensures t.power <==> s.power != Some(false)
    ensures Loaded(t)
  {
    Tenant(
      s.name, s.phone, s.rent, s.startDate, s.rentPlan, s.gracePeriod,
      OrElse(s.emergencyContact, DefaultEmergencyContact),
      OrElse(s.emergencyPhone, DefaultEmergencyPhone),
      match s.transactions case Some(txs) => txs case None => [],
      match s.power case Some(b) => b case None => true)
  }

  /** Loading the whole stored list: one loaded tenant per record, in the same order. */
  function LoadTenants(saved: seq<StoredTenant>): (ts: seq<Tenant>)
    ensures |ts| == |saved|
    ensures forall k :: 0 <= k < |saved| ==> ts[k] == LoadTenant(saved[k])
    ensures AllLoaded(ts)
  {
    if saved == [] then [] else [LoadTenant(saved[0])] + LoadTenants(saved[1..])
  }

  /** What `JSON.stringify` writes for an in-memory tenant: every field present. */
  function PersistTenant(t: Tenant): (s: StoredTenant)
    ensures s.name == t.name && s.phone == t.phone && s.rent == t.rent
    ensures s.startDate == t.startDate && s.rentPlan == t.rentPlan && s.gracePeriod == t.gracePeriod
    ensures s.emergencyContact.Some? && s.emergencyPhone.Some? && s.transactions.Some? && s.power.Some?
    ensures Loaded(t) ==> LoadTenant(s) == t
  {
    StoredTenant(
      t.name, t.phone, t.rent, t.startDate, t.rentPlan, t.gracePeriod,
      Some(t.emergencyContact), Some(t.emergencyPhone), Some(t.transactions), Some(t.power))
  }

  /** The value written to the `tenants` key after a change. */
  function Persist(ts: seq<Tenant>): (saved: seq<StoredTenant>)
    ensures |saved| == |ts|
    ensures forall k :: 0 <= k < |ts| ==> saved[k] == PersistTenant(ts[k])
  {
    if ts == [] then [] else [PersistTenant(ts[0])] + Persist(ts[1..])
  }

  /** Reloading the view after a write shows exactly the list that was written. */
  lemma ReloadRoundTrip(ts: seq<Tenant>)
    requires AllLoaded(ts)
    ensures LoadTenants(Persist(ts)) == ts
  {
  }

  /** The list after `togglePower(i)`: tenant `i` has its flag flipped, nothing else changes. */
  function WithPowerToggled(ts: seq<Tenant>, i: nat): (r: seq<Tenant>)
    requires i < |ts|
    ensures |r| == |ts|
    ensures r[i].power == !ts[i].power
    ensures r[i] == ts[i].(power := r[i].power)
    ensures forall k :: 0 <= k < |ts| && k != i ==> r[k] == ts[k]
  {
    ts[i := ts[i].(power := !ts[i].power)]
  }

  /** Toggling the same tenant twice restores the list. */
  lemma TogglePowerInvolution(ts: seq<Tenant>, i: nat)
    requires i < |ts|
    ensures WithPowerToggled(WithPowerToggled(ts, i), i) == ts
  {
  }

  /** The list after a payment row `tx` is added to tenant `i`: appended at the end of its rows. */
  function WithTransaction(ts: seq<Tenant>, i: nat, tx: Transaction): (r: seq<Tenant>)
    requires i < |ts|
    ensures |r| == |ts|
    ensures |r[i].transactions| == |ts[i].transactions| + 1
    ensures r[i].transactions[..|ts[i].transactions|] == ts[i].transactions
    ensures r[i].transactions[|ts[i].transactions|] == tx
    ensures r[i] == ts[i].(transactions := r[i].transactions)
    ensures forall k :: 0 <= k < |ts| && k != i ==> r[k] == ts[k]
  {
    ts[i := ts[i].(transactions := ts[i].transactions + [tx])]
  }

  /** The list after row `j` of tenant `i` is deleted (`splice(j, 1)` on its rows). */
  function WithoutTransaction(ts: seq<Tenant>, i: nat, j: nat): (r: seq<Tenant>)
    requires i < |ts|
    ensures |r| == |ts|
    ensures r[i].transactions == RemoveAt(ts[i].transactions, j)
    ensures |ts[i].transactions| <= j ==> r == ts
    ensures r[i] == ts[i].(transactions := r[i].transactions)
    ensures forall k :: 0 <= k < |ts| && k != i ==> r[k] == ts[k]
  {
    ts[i := ts[i].(transactions := RemoveAt(ts[i].transactions, j))]
  }

  /** Adding a row and then deleting the last row of that tenant gives back the list. */
  lemma AddThenDeleteTransactionRestores(ts: seq<Tenant>, i: nat, tx: Transaction)
    requires i < |ts|
    ensures WithoutTransaction(WithTransaction(ts, i, tx), i, |ts[i].transactions|) == ts
  {
    RemoveLastAfterAppend(ts[i].transactions, tx);
  }

  /** The component: its `tenants` state, its transaction draft, and the shared store. */
  class TenantDetails {
    const storage: LocalStorage
    var tenants: seq<Tenant>
    var newTx: Transaction

    ghost predicate Valid()
      reads this
    {
      AllLoaded(tenants) && IsTxStatus(newTx.status)
    }

    /** Mounting the view: the stored list is read once and filled in with defaults. */
    constructor(storage: LocalStorage)
      ensures this.storage == storage
      ensures tenants == LoadTenants(storage.tenants)
      ensures newTx == EmptyDraft
      ensures Valid()
    {
      this.storage := storage;
      tenants := LoadTenants(storage.tenants);
      newTx := EmptyDraft;
    }

    /** `handleDeleteTenant`; `confirmed` is the answer to the confirmation prompt. */
    method DeleteTenant(index: nat, confirmed: bool) returns (deleted: bool)
      requires Valid()
      modifies this`tenants, storage`tenants
      ensures Valid()
      ensures deleted == confirmed
      ensures confirmed ==> tenants == RemoveAt(old(tenants), index)
      ensures confirmed ==> storage.tenants == Persist(tenants)
      ensures !confirmed ==> tenants == old(tenants) && storage.tenants == old(storage.tenants)
    {
      deleted := confirmed;
      if confirmed {
        tenants := RemoveAt(tenants, index);
        storage.tenants := Persist(tenants);
      }
    }

    /** `togglePower`: flips one tenant's power flag and writes the list back. */
    method TogglePower(index: nat)
      requires Valid()
      requires index < |tenants|
      modifies this`tenants, storage`tenants
      ensures Valid()
      ensures tenants == WithPowerToggled(old(tenants), index)
      ensures storage.tenants == Persist(tenants)
    {
      tenants := WithPowerToggled(tenants, index);
      storage.tenants := Persist(tenants);
    }

    /**
     * `addTransaction`: an incomplete draft is refused; otherwise a copy of it is
     * appended to tenant `index`'s rows, the list is written back and the draft cleared.
     */
    method AddTransaction(index: nat) returns (added: bool)
      requires Valid()
      requires newTx.date != "" && newTx.amount != "" ==> index < |tenants|
      modifies this`tenants, this`newTx, storage`tenants
      ensures Valid()
      ensures added <==> old(newTx).date != "" && old(newTx).amount != ""
      ensures !added ==> tenants == old(tenants) && newTx == old(newTx)
      ensures !added ==> storage.tenants == old(storage.tenants)
      ensures added ==> tenants == WithTransaction(old(tenants), index, old(newTx))
      ensures added ==> storage.tenants == Persist(tenants)
      ensures added ==> newTx == EmptyDraft
    {
      if newTx.date == "" || newTx.amount == "" {
        return false;
      }
      tenants := WithTransaction(tenants, index, newTx);
      storage.tenants := Persist(tenants);
      newTx := EmptyDraft;
      added := true;
    }

    /** The row delete button: `splice(txIndex, 1)` on tenant `index`'s rows, then write back. */
    method DeleteTransaction(index: nat, txIndex: nat)
      requires Valid()
      requires index < |tenants|
      modifies this`tenants, storage`tenants
      ensures Valid()
      ensures tenants == WithoutTransaction(old(tenants), index, txIndex)
      ensures storage.tenants == Persist(tenants)
    {
      tenants := WithoutTransaction(tenants, index, txIndex);
      storage.tenants := Persist(tenants);
    }

    /** Typing in the draft's date field. */
    method SetTxDate(date: string)
      requires Valid()
      modifies this`newTx
      ensures Valid()
      ensures newTx == old(newTx).(date := date)
    {
      newTx := newTx.(date := date);
    }

    /** Picking a status in the draft's selector. */
    method SetTxStatus(status: string)
      requires Valid()
      requires IsTxStatus(status)
      modifies this`newTx
      ensures Valid()
      ensures newTx == old(newTx).(status := status)
    {
      newTx := newTx.(status := status);
    }

    /** Typing in the draft's amount field. */
    method SetTxAmount(amount: string)
      requires Valid()
      modifies this`newTx
      ensures Valid()
      ensures newTx == old(newTx).(amount := amount)
    {
      newTx := newTx.(amount := amount);
    }
  }
}
