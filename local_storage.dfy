/**
 * The browser-storage customer service: one decoded customer list under the `customers`
 * key, seeded with three defaults on first use. Every operation first seeds (if the key is
 * missing), then reads the list, changes it and writes it back.
 */
module LocalStorage {
  import opened Common
  import opened Seqs
  import opened Text

  datatype Customer = Customer(
    id: string, name: string, email: string, companyName: string, phoneNo: string,
    profileImage: Option<string>, gender: string, country: string, state: string,
    isSubscribed: bool, address: string, notes: string, documents: seq<string>,
    status: string, createdAt: string)

  /** The input of `addCustomer`: a customer without `_id` and `createdAt`. */
  datatype NewCustomer = NewCustomer(
    name: string, email: string, companyName: string, phoneNo: string,
    profileImage: Option<string>, gender: string, country: string, state: string,
    isSubscribed: bool, address: string, notes: string, documents: seq<string>, status: string)

  /** `Partial<Customer>`: `Some` marks a key present in the update object. */
  datatype CustomerPatch = CustomerPatch(
    id: Option<string>, name: Option<string>, email: Option<string>, companyName: Option<string>,
    phoneNo: Option<string>, profileImage: Option<string>, gender: Option<string>,
    country: Option<string>, state: Option<string>, isSubscribed: Option<bool>,
    address: Option<string>, notes: Option<string>, documents: Option<seq<string>>,
    status: Option<string>, createdAt: Option<string>)

  const EmptyPatch := CustomerPatch(None, None, None, None, None, None, None, None, None, None,
                                    None, None, None, None, None)

  function StatusPatch(status: string): CustomerPatch {
    EmptyPatch.(status := Some(status))
  }

  /** The three customers written when the key is missing; `now` is the seeding time. */
  function DefaultCustomers(now: string): seq<Customer> {
    [ Customer("1", "John Doe", "john@example.com", "Tech Solutions Inc.", "+1 (555) 123-4567",
               Some("https://via.placeholder.com/100"), "male", "us", "CA", true,
               "123 Tech St, San Francisco, CA", "Regular customer", [], "active", now),
      Customer("2", "Jane Smith", "jane@example.com", "Global Marketing Co.", "+1 (555) 987-6543",
               Some("https://via.placeholder.com/100"), "female", "us", "NY", false,
               "456 Market Ave, New York, NY", "VIP customer", [], "active", now),
      Customer("3", "Robert Johnson", "robert@example.com", "Innovative Designs LLC",
               "+1 (555) 456-7890", Some("https://via.placeholder.com/100"), "other", "in", "MA",
               true, "789 Design Blvd, Los Angeles, CA", "New customer", [], "inactive", now) ]
  }

  /** The list every operation works on: the stored one, or the defaults when the key is missing. */
  function Contents(stored: Option<seq<Customer>>, now: string): (r: seq<Customer>)
    ensures stored.Some? ==> r == stored.value
    ensures stored.None? ==> |r| == 3 && r[0].id == "1" && r[1].id == "2" && r[2].id == "3"
    ensures stored.None? ==> r[0].status == "active" && r[1].status == "active" && r[2].status == "inactive"
  {
    if stored.Some? then stored.value else DefaultCustomers(now)
  }

  /** `parseInt(customer._id)`: the number customers are looked up by. */
  function CustomerNumber(c: Customer): Num { ParseInt(c.id) }

  /** `parseInt(customer._id) === id`; `id` is a number, so strict equality is plain equality. */
  predicate MatchesId(c: Customer, id: int) { StrictEquals(CustomerNumber(c), Int(id)) }

  /** The first customer matching `id`, as `find` returns it. */
  function Lookup(cs: seq<Customer>, id: int): (r: Option<Customer>)
    ensures r.None? <==> forall i :: 0 <= i < |cs| ==> !MatchesId(cs[i], id)
    ensures r.Some? ==> r.value in cs && MatchesId(r.value, id)
    ensures r.Some? ==> exists i :: (0 <= i < |cs| && cs[i] == r.value
                                     && forall j :: 0 <= j < i ==> !MatchesId(cs[j], id))
  {
    var i := IndexOfKey(cs, CustomerNumber, Int(id));
    if i == -1 then None else Some(cs[i])
  }

  /** The record `addCustomer` appends: the input, with `_id` = old length + 1, `createdAt` = now, status 'active'. */
  function AddedCustomer(cs: seq<Customer>, c: NewCustomer, now: string): (r: Customer)
    ensures r.id == IntText(|cs| + 1) && r.createdAt == now && r.status == "active"
    ensures r.name == c.name && r.email == c.email && r.companyName == c.companyName
    ensures r.phoneNo == c.phoneNo && r.profileImage == c.profileImage && r.gender == c.gender
    ensures r.country == c.country && r.state == c.state && r.isSubscribed == c.isSubscribed
    ensures r.address == c.address && r.notes == c.notes && r.documents == c.documents
  {
    Customer(IntText(|cs| + 1), c.name, c.email, c.companyName, c.phoneNo, c.profileImage,
             c.gender, c.country, c.state, c.isSubscribed, c.address, c.notes, c.documents,
             "active", now)
  }

  /** `{ ...c, ...p }`: every key present in the patch wins. */
  function MergeCustomer(c: Customer, p: CustomerPatch): (r: Customer)
    ensures p == EmptyPatch ==> r == c
    ensures p == StatusPatch(p.status.GetOr("")) && p.status.Some? ==> r == c.(status := p.status.value)
  {
    Customer(p.id.GetOr(c.id), p.name.GetOr(c.name), p.email.GetOr(c.email),
             p.companyName.GetOr(c.companyName), p.phoneNo.GetOr(c.phoneNo),
             if p.profileImage.Some? then p.profileImage else c.profileImage,
             p.gender.GetOr(c.gender), p.country.GetOr(c.country), p.state.GetOr(c.state),
             p.isSubscribed.GetOr(c.isSubscribed), p.address.GetOr(c.address),
             p.notes.GetOr(c.notes), p.documents.GetOr(c.documents), p.status.GetOr(c.status),
             p.createdAt.GetOr(c.createdAt))
  }

  /** The list after `updateCustomer`: only the first match is replaced by the merge. */
  function Updated(cs: seq<Customer>, id: int, p: CustomerPatch): (r: seq<Customer>)
    ensures |r| == |cs|
    ensures Lookup(cs, id).None? ==> r == cs
    ensures var i := IndexOfKey(cs, CustomerNumber, Int(id));
      i != -1 ==> r[i] == MergeCustomer(cs[i], p) && forall j :: 0 <= j < |cs| && j != i ==> r[j] == cs[j]
  {
    var i := IndexOfKey(cs, CustomerNumber, Int(id));
    if i == -1 then cs else cs[i := MergeCustomer(cs[i], p)]
  }

  /** The list after `deleteCustomer`: every match removed, the rest kept in order. */
  function Deleted(cs: seq<Customer>, id: int): (r: seq<Customer>)
    ensures forall c :: c in r <==> c in cs && !MatchesId(c, id)
    ensures IsSubsequence(r, cs)
    ensures forall c {:trigger multiset(r)[c]} :: multiset(r)[c] == if MatchesId(c, id) then 0 else multiset(cs)[c]
    ensures |r| == |cs| <==> Lookup(cs, id).None?
  {
    var r := RemoveKey(cs, CustomerNumber, Int(id));
    DeletedCounts(cs, id, r);
    r
  }

  /** `filter` keeps every copy of each customer whose number differs, and none of those that match. */
  lemma DeletedCounts(cs: seq<Customer>, id: int, r: seq<Customer>)
    requires r == RemoveKey(cs, CustomerNumber, Int(id))
    ensures forall c {:trigger multiset(r)[c]} :: multiset(r)[c] == if MatchesId(c, id) then 0 else multiset(cs)[c]
  {
    forall c
      ensures multiset(r)[c] == if MatchesId(c, id) then 0 else multiset(cs)[c]
    {
      assert MatchesId(c, id) <==> CustomerNumber(c) == Int(id);
    }
  }

  /** The storage key `customers`: `None` while missing, else the decoded list. */
  class CustomerStore {
    var stored: Option<seq<Customer>>

    constructor(initial: Option<seq<Customer>>)
      ensures stored == initial
    {
      stored := initial;
    }

    /** `initializeStorage`: write the defaults only when the key is missing. */
    method Initialize(now: string)
      modifies this
      ensures stored == Some(Contents(old(stored), now))
      ensures old(stored).Some? ==> stored == old(stored)
    {
      if stored.None? {
        stored := Some(DefaultCustomers(now));
      }
    }

    method GetCustomers(now: string) returns (r: seq<Customer>)
      modifies this
      ensures r == Contents(old(stored), now) && stored == Some(r)
    {
      Initialize(now);
      r := stored.value;
    }

    method GetCustomerById(id: int, now: string) returns (r: Option<Customer>)
      modifies this
      ensures stored == Some(Contents(old(stored), now))
      ensures r == Lookup(Contents(old(stored), now), id)
    {
      var cs := GetCustomers(now);
      var i := IndexOfKey(cs, CustomerNumber, Int(id));
      r := if i == -1 then None else Some(cs[i]);
    }

    method AddCustomer(c: NewCustomer, now: string) returns (r: Customer)
      modifies this
      ensures r == AddedCustomer(Contents(old(stored), now), c, now)
      ensures stored == Some(Contents(old(stored), now) + [r])
    {
      var cs := GetCustomers(now);
      r := AddedCustomer(cs, c, now);
      cs := cs + [r];
      stored := Some(cs);
    }

    method UpdateCustomer(id: int, p: CustomerPatch, now: string) returns (r: Option<Customer>)
      modifies this
      ensures var cs := Contents(old(stored), now);
        stored == Some(Updated(cs, id, p))
        && r == (if Lookup(cs, id).None? then None else Some(MergeCustomer(Lookup(cs, id).value, p)))
    {
      var cs := GetCustomers(now);
      var i := IndexOfKey(cs, CustomerNumber, Int(id));
      if i == -1 {
        return None;
      }
      var updated := MergeCustomer(cs[i], p);
      cs := cs[i := updated];
      stored := Some(cs);
      r := Some(updated);
    }

    method DeleteCustomer(id: int, now: string) returns (r: bool)
      modifies this
      ensures var cs := Contents(old(stored), now);
        (r <==> Lookup(cs, id).Some?) && stored == Some(if r then Deleted(cs, id) else cs)
    {
      var cs := GetCustomers(now);
      var initialLength := |cs|;
      var remaining := RemoveKey(cs, CustomerNumber, Int(id));
      if |remaining| == initialLength {
        return false;
      }
      stored := Some(remaining);
      r := true;
    }

    method ChangeCustomerStatus(id: int, status: string, now: string) returns (r: bool)
      modifies this
      ensures var cs := Contents(old(stored), now);
        (r <==> Lookup(cs, id).Some?) && stored == Some(Updated(cs, id, StatusPatch(status)))
    {
      Initialize(now);
      var updated := UpdateCustomer(id, StatusPatch(status), now);
      r := updated.Some?;
    }
  }

  // ----- properties of the store -----

  /** Seeding on first use means the list is never empty then. */
  lemma FirstUseIsSeeded(now: string)
    ensures Contents(None, now) != [] && Contents(Some(Contents(None, now)), now) == Contents(None, now)
  {
  }

  /** A status change touches only the status of the first match; every other field and record stays. */
  lemma StatusChangeOnlyStatus(cs: seq<Customer>, id: int, status: string)
    requires Lookup(cs, id).Some?
    ensures var i := IndexOfKey(cs, CustomerNumber, Int(id));
      Updated(cs, id, StatusPatch(status)) == cs[i := cs[i].(status := status)]
  {
    var i := IndexOfKey(cs, CustomerNumber, Int(id));
    assert StatusPatch(status).status.Some?;
  }

  /** `updateCustomer(id, {})` writes nothing new and returns what `getCustomerById` returns. */
  lemma EmptyUpdateIsLookup(cs: seq<Customer>, id: int)
    ensures Updated(cs, id, EmptyPatch) == cs
    ensures Lookup(cs, id).Some? ==> MergeCustomer(Lookup(cs, id).value, EmptyPatch) == Lookup(cs, id).value
  {
    var i := IndexOfKey(cs, CustomerNumber, Int(id));
    if i != -1 {
      assert cs[i := MergeCustomer(cs[i], EmptyPatch)] == cs;
    }
  }

  /** The seed's `_id`s read back as the numbers 1, 2 and 3. */
  lemma SeedNumbers(now: string)
    ensures var seed := DefaultCustomers(now);
      |seed| == 3 && CustomerNumber(seed[0]) == Int(1) && CustomerNumber(seed[1]) == Int(2)
      && CustomerNumber(seed[2]) == Int(3) && seed[2].id == IntText(3)
  {
    ParseIntOfIntText(1);
    ParseIntOfIntText(2);
    ParseIntOfIntText(3);
    assert IntText(1) == "1" && IntText(2) == "2" && IntText(3) == "3";
  }

  /** Of the seed, only the first customer answers the number 1. */
  lemma OnlyFirstSeedIsOne(now: string)
    ensures var seed := DefaultCustomers(now);
      forall i :: 1 <= i < |seed| ==> CustomerNumber(seed[i]) != Int(1)
  {
    var seed := DefaultCustomers(now);
    SeedNumbers(now);
    assert |seed| == 3;
  }

  /** Deleting id 1 from the seed leaves exactly the customers '2' and '3', in order. */
  lemma DeleteFirstSeed(now: string)
    ensures var seed := DefaultCustomers(now);
      Deleted(seed, 1) == seed[1..]
  {
    SeedNumbers(now);
    OnlyFirstSeedIsOne(now);
    RemoveKeyHead(DefaultCustomers(now), CustomerNumber, Int(1));
  }

  /** The `_id` is length + 1, so deleting '1' from the seed and adding gives a second '3'. */
  lemma DuplicateIdAfterDelete(c: NewCustomer, now: string)
    ensures var seed := DefaultCustomers(now);
      var afterDelete := Deleted(seed, 1);
      AddedCustomer(afterDelete, c, now).id == "3" && seed[2].id == "3" && seed[2] in afterDelete
  {
    DeleteFirstSeed(now);
    SeedNumbers(now);
  }
}
