/**
 * The stateless mock responders: every call builds a fresh answer, and customer lookup is a
 * `find` over a fixed list of six records.
 */
module MockApi {
  import opened Common
  import opened Seqs
  import opened Text
  import opened FormDataModel

  /** The user echoed by a successful registration or login. */
  datatype ApiUser = ApiUser(id: int, email: string, name: string)

  /** `mockRegister`: three checks in order, then success with user id 1. */
  function MockRegister(email: string, password: string, name: string): (r: Result<ApiUser>)
    ensures (email == "" || password == "" || name == "") ==> r == Err("All fields are required")
    ensures email != "" && password != "" && name != "" && !Includes(email, "@")
            ==> r == Err("Invalid email format")
    ensures email != "" && password != "" && name != "" && Includes(email, "@") && |password| < 6
            ==> r == Err("Password must be at least 6 characters")
    ensures r.Ok? <==> email != "" && password != "" && name != "" && Includes(email, "@") && |password| >= 6
    ensures r.Ok? ==> r.value == ApiUser(1, email, name)
  {
    if email == "" || password == "" || name == "" then Err("All fields are required")
    else if !Includes(email, "@") then Err("Invalid email format")
    else if |password| < 6 then Err("Password must be at least 6 characters")
    else Ok(ApiUser(1, email, name))
  }

  datatype LoginAnswer = LoginAnswer(token: string, user: ApiUser)

  /** `mockLogin`: one fixed account. */
  function MockLogin(email: string, password: string): (r: Result<LoginAnswer>)
    ensures r.Ok? <==> email == "admin@example.com" && password == "Password123!"
    ensures r.Ok? ==> r.value.token == "mock-jwt-token-for-testing" && r.value.user.email == email
    ensures r.Err? ==> r.message == "Invalid credentials"
  {
    if email == "admin@example.com" && password == "Password123!" then
      Ok(LoginAnswer("mock-jwt-token-for-testing", ApiUser(1, "admin@example.com", "Super Admin")))
    else
      Err("Invalid credentials")
  }

  datatype ApiCustomer = ApiCustomer(
    id: string, name: string, email: string, companyName: string, phoneNo: string,
    profileImage: string, gender: string, country: string, isSubscribed: bool, address: string,
    documents: seq<string>, status: string, createdAt: string)

  /** The identifier text the six records share except for their last character. */
  const IdPrefix := "690b1a2b4e7e8d12345abcde"

  function JohnDoe(): ApiCustomer {
    ApiCustomer(IdPrefix + "1", "John Doe", "john@example.com", "Tech Solutions Inc.",
                "+1 (555) 123-4567", "https://via.placeholder.com/100", "male", "us", true,
                "123 Tech St, San Francisco, CA",
                ["https://via.placeholder.com/150", "https://example.com/document.pdf"],
                "active", "2025-01-15T10:30:00.000Z")
  }

  /** `mockGetCustomers`: the same John Doe record four times, then Jane Smith and Robert Johnson. */
  function MockCustomers(): seq<ApiCustomer> {
    [ JohnDoe(), JohnDoe(), JohnDoe(), JohnDoe(),
      ApiCustomer(IdPrefix + "2", "Jane Smith", "jane@example.com", "Global Marketing Co.",
                  "+1 (555) 987-6543", "https://via.placeholder.com/100", "female", "us", false,
                  "456 Market Ave, New York, NY", ["https://via.placeholder.com/150"],
                  "inactive", "2025-01-20T11:45:00.000Z"),
      ApiCustomer(IdPrefix + "3", "Robert Johnson", "robert@example.com",
                  "Innovative Designs LLC", "+1 (555) 456-7890", "https://via.placeholder.com/100",
                  "other", "in", true, "789 Design Blvd, Los Angeles, CA", [],
                  "active", "2025-02-01T09:15:00.000Z") ]
  }

  function ApiKey(c: ApiCustomer): string { c.id }

  /** Six records: John Doe four times, then Jane Smith (inactive) and Robert Johnson. */
  lemma MockCustomersShape()
    ensures |MockCustomers()| == 6
    ensures forall i :: 0 <= i < 4 ==> MockCustomers()[i] == JohnDoe()
    ensures MockCustomers()[4].id == IdPrefix + "2" && MockCustomers()[4].name == "Jane Smith"
    ensures MockCustomers()[4].status == "inactive"
    ensures MockCustomers()[5].id == IdPrefix + "3" && MockCustomers()[5].name == "Robert Johnson"
    ensures MockCustomers()[5].status == "active"
  {
  }

  /** The six records do not have unique identifiers. */
  lemma MockCustomersShareIds()
    ensures |MockCustomers()| == 6
    ensures !NoDuplicates(Map(MockCustomers(), ApiKey))
  {
    assert Map(MockCustomers(), ApiKey)[0] == Map(MockCustomers(), ApiKey)[1];
  }

  /** `customer._id.includes(id.toString())`. */
  predicate IdContains(c: ApiCustomer, text: string) { Includes(c.id, text) }

  /** `r` is the first record of `cs` whose `_id` contains `t`, or the first record when none does. */
  predicate IsFirstContaining(cs: seq<ApiCustomer>, t: string, r: ApiCustomer) {
    if exists i :: 0 <= i < |cs| && IdContains(cs[i], t) then
      exists i :: 0 <= i < |cs| && r == cs[i] && IdContains(cs[i], t)
        && forall j :: 0 <= j < i ==> !IdContains(cs[j], t)
    else
      |cs| > 0 && r == cs[0]
  }

  /** `customers.find(c => c._id.includes(t)) || customers[0]` over a non-empty list. */
  function LookupIn(cs: seq<ApiCustomer>, t: string): (r: ApiCustomer)
    requires |cs| > 0
    ensures r in cs
    ensures IsFirstContaining(cs, t, r)
  {
    FindOrFirst(cs, c => IdContains(c, t))
  }

  /**
   * `mockGetCustomerById`: the first record whose `_id` contains the id's text (`NaN` for
   * `NaN`), else the first record.
   */
  function MockGetCustomerById(id: Num): (r: ApiCustomer)
    ensures r in MockCustomers()
    ensures IsFirstContaining(MockCustomers(), NumText(id), r)
  {
    LookupIn(MockCustomers(), NumText(id))
  }

  /** An occurrence in `p + [d]` lies inside `p`, is the single character `d`, or contains `p`'s last character. */
  lemma OccurrenceBeforeLast(p: string, d: char, t: string, i: int)
    requires |p| >= 1 && |t| >= 1
    requires OccursAt(p + [d], t, i)
    ensures OccursAt(p, t, i) || t == [d] || p[|p| - 1] in t
  {
    var s := p + [d];
    if i + |t| <= |p| {
      assert s[i..i + |t|] == p[i..i + |t|];
    } else if |t| == 1 {
      assert t == s[|s| - 1..];
    } else {
      assert t[|t| - 2] == s[i..i + |t|][|t| - 2] == s[|s| - 2];
    }
  }

  /** An integer's text never contains 'e'. */
  lemma IntTextHasNoE(n: int)
    ensures forall k :: 0 <= k < |IntText(n)| ==> IntText(n)[k] != 'e'
  {
    var t := IntText(n);
    forall k | 0 <= k < |t|
      ensures t[k] != 'e'
    {
      if n < 0 && k > 0 {
        assert t[1..][k - 1] == t[k];
      }
    }
  }

  /** The last characters of Jane's and Robert's ids both occur inside John Doe's id. */
  lemma LastDigitsInFirst()
    ensures OccursAt(IdPrefix + ['1'], ['2'], 6) && OccursAt(IdPrefix + ['1'], ['3'], 16)
  {
  }

  /** Text without `p`'s last character found in `p + [d]` is found in `p + [c]` too, once `d` is. */
  lemma OccurrenceCarriesOver(p: string, c: char, d: char, t: string, j: int)
    requires |p| >= 1 && |t| >= 1 && p[|p| - 1] !in t
    requires OccursAt(p + [c], [d], j)
    ensures Includes(p + [d], t) ==> Includes(p + [c], t)
  {
    if Includes(p + [d], t) {
      var i :| OccursAt(p + [d], t, i);
      OccurrenceBeforeLast(p, d, t, i);
      var first := p + [c];
      if t != [d] {
        assert first[i..i + |t|] == p[i..i + |t|];
        assert OccursAt(first, t, i);
      }
    }
  }

  /** Text without a capital `N` does not contain `NaN`. */
  lemma NaNNeedsCapitalN(t: string)
    requires forall k :: 0 <= k < |t| ==> t[k] != 'N'
    ensures !Includes(t, "NaN")
  {
    forall k | 0 <= k && k + 3 <= |t|
      ensures !OccursAt(t, "NaN", k)
    {
      assert t[k..k + 3][0] == t[k];
    }
  }

  /** No record's id contains `NaN`: the ids are the lower-case prefix and a digit. */
  lemma NoIdContainsNaN()
    ensures forall i :: 0 <= i < |MockCustomers()| ==> !IdContains(MockCustomers()[i], "NaN")
  {
    MockCustomersShape();
    forall d | d in "123"
      ensures !Includes(IdPrefix + [d], "NaN")
    {
      NaNNeedsCapitalN(IdPrefix + [d]);
    }
    assert JohnDoe().id == IdPrefix + "1";
  }

  /** When every record containing `t` has the first record containing it too, the lookup answers the first record. */
  lemma {:induction false} LookupAnswersFirst(cs: seq<ApiCustomer>, t: string, r: ApiCustomer)
    requires |cs| > 0 && IsFirstContaining(cs, t, r)
    requires forall i :: 0 <= i < |cs| && IdContains(cs[i], t) ==> IdContains(cs[0], t)
    ensures r == cs[0]
  {
    if exists i :: 0 <= i < |cs| && IdContains(cs[i], t) {
      var i :| 0 <= i < |cs| && r == cs[i] && IdContains(cs[i], t)
        && forall j :: 0 <= j < i ==> !IdContains(cs[j], t);
      assert i == 0;
    }
  }

  /**
   * Every integer text found in the later records' ids is already in John Doe's id, and `NaN`
   * is in none of them, so `mockGetCustomerById` answers John Doe for every id.
   */
  lemma MockLookupAlwaysFirst(id: Num)
    ensures MockGetCustomerById(id) == JohnDoe()
  {
    var cs := MockCustomers();
    var t := NumText(id);
    MockCustomersShape();
    if id.NaN? {
      NoIdContainsNaN();
    } else {
      IntTextHasNoE(id.value);
      assert IdPrefix[|IdPrefix| - 1] == 'e';
      assert 'e' !in t;
      LastDigitsInFirst();
      OccurrenceCarriesOver(IdPrefix, '1', '2', t, 6);
      OccurrenceCarriesOver(IdPrefix, '1', '3', t, 16);
      assert JohnDoe().id == IdPrefix + ['1'];
    }
    LookupAnswersFirst(cs, t, MockGetCustomerById(id));
  }

  /** The answer of create and update: the form values as `get` returns them, plus fixed files. */
  datatype SavedCustomer = SavedCustomer(
    id: string, name: Option<FormValue>, email: Option<FormValue>, companyName: Option<FormValue>,
    phoneNo: Option<FormValue>, gender: Option<FormValue>, country: Option<FormValue>,
    isSubscribed: bool, address: Option<FormValue>, profileImage: string, documents: seq<string>,
    status: string, createdAt: string)

  datatype Saved = Saved(success: bool, message: string, data: SavedCustomer)

  /** The fields both create and update read back from the form, with `_id` supplied by the caller. */
  function EchoForm(id: string, fd: FormData, now: string): (r: SavedCustomer)
    ensures r.id == id && r.status == "active" && r.createdAt == now
    ensures r.isSubscribed <==> Get(fd, "isSubscribed") == Some(Text("true"))
    ensures r.name == Get(fd, "name") && r.email == Get(fd, "email")
    ensures r.companyName == Get(fd, "companyName") && r.phoneNo == Get(fd, "phoneNo")
    ensures r.gender == Get(fd, "gender") && r.country == Get(fd, "country")
    ensures r.address == Get(fd, "address")
  {
    SavedCustomer(id, Get(fd, "name"), Get(fd, "email"), Get(fd, "companyName"), Get(fd, "phoneNo"),
                  Get(fd, "gender"), Get(fd, "country"), Get(fd, "isSubscribed") == Some(Text("true")),
                  Get(fd, "address"), "uploads/profileImage/download.jpeg",
                  ["uploads/documents/download.jpeg"], "active", now)
  }

  /** `mockCreateCustomer`; `nowMillis` is `Date.now()` and `now` the ISO time. */
  function MockCreateCustomer(fd: FormData, nowMillis: int, now: string): (r: Saved)
    ensures r.success && r.message == "Customer added successfully"
    ensures r.data == EchoForm("690b1a2b4e7e8d12345" + IntText(nowMillis), fd, now)
  {
    Saved(true, "Customer added successfully", EchoForm("690b1a2b4e7e8d12345" + IntText(nowMillis), fd, now))
  }

  /** `mockUpdateCustomer`: `_id` is the fixed prefix followed by the id's text. */
  function MockUpdateCustomer(id: Num, fd: FormData, now: string): (r: Saved)
    ensures r.success && r.message == "Customer updated successfully"
    ensures r.data == EchoForm(IdPrefix + NumText(id), fd, now)
  {
    Saved(true, "Customer updated successfully", EchoForm(IdPrefix + NumText(id), fd, now))
  }

  /** An updated record's id is John Doe's prefix followed by the id's text. */
  lemma UpdateIdCarriesNumber(n: int, fd: FormData, now: string)
    ensures var saved := MockUpdateCustomer(Int(n), fd, now).data.id;
      saved[24..] == IntText(n) && ParseInt(saved[24..]) == Int(n)
  {
    ParseIntOfIntText(n);
    var saved := MockUpdateCustomer(Int(n), fd, now).data.id;
    assert saved[24..] == IntText(n);
  }

  datatype Ack = Ack(success: bool, message: string)

  /** `mockDeleteCustomer`: always succeeds, whatever the id. */
  function MockDeleteCustomer(id: Num): (r: Ack)
    ensures r.success && r.message == "Customer deleted successfully"
  {
    Ack(true, "Customer deleted successfully")
  }

  datatype StatusAnswer = StatusAnswer(success: bool, message: string, id: Num, status: string)

  /** `mockChangeCustomerStatus`: echoes exactly the given id and status. */
  function MockChangeCustomerStatus(id: Num, status: string): (r: StatusAnswer)
    ensures r.success && r.id == id && r.status == status
    ensures r.message == "Customer status updated successfully"
  {
    StatusAnswer(true, "Customer status updated successfully", id, status)
  }
}
