/**
 * The customer detail page: the country name shown for a stored country value, the fetch by
 * route id, and the delete and status buttons.
 */
module CustomerView {
  import opened Common
  import opened Text
  import opened MockApi
  import CustomerList
  import CustomerForm

  /** The country codes the page knows, with their full names. */
  const CountryCodes: map<string, string> := map[
    "US" := "United States", "CA" := "Canada", "UK" := "United Kingdom", "AU" := "Australia",
    "DE" := "Germany", "FR" := "France", "IN" := "India", "CN" := "China", "JP" := "Japan"]

  /**
   * `getCountryName`: a full name is shown as it is, a known code as its name, anything
   * else unchanged.
   */
  function CountryName(code: string): (r: string)
    ensures code in CountryCodes.Values ==> r == code
    ensures code !in CountryCodes.Values && code in CountryCodes ==> r == CountryCodes[code]
    ensures code !in CountryCodes.Values && code !in CountryCodes ==> r == code
    ensures r == code || r in CountryCodes.Values
  {
    if code in CountryCodes.Values then code
    else if code in CountryCodes && CountryCodes[code] != "" then CountryCodes[code]
    else code
  }

  /** Showing a country name a second time changes nothing. */
  lemma CountryNameIdempotent(code: string)
    ensures CountryName(CountryName(code)) == CountryName(code)
  {
    var r := CountryName(code);
    if r != code {
      assert r in CountryCodes.Values;
    }
  }

  /** The form stores country codes lower-cased, and lower-case codes are not in the table. */
  lemma LowerCasedCodeIsShownAsIs()
    ensures CountryName("in") == "in" && CountryName("IN") == "India"
  {
    assert "in" !in CountryCodes;
    assert "India" in CountryCodes.Values by {
      assert CountryCodes["IN"] == "India";
    }
    assert "in" !in CountryCodes.Values by {
      forall k | k in CountryCodes
        ensures CountryCodes[k] != "in"
      {
      }
    }
    assert "IN" !in CountryCodes.Values by {
      forall k | k in CountryCodes
        ensures CountryCodes[k] != "IN"
      {
      }
    }
  }

  /** Pressing the status button twice, both times successfully, restores a valid status. */
  lemma ToggleTwice(status: string)
    ensures CustomerList.ToggleTarget(CustomerList.ToggleTarget(status)) == status
            <==> status == "active" || status == "inactive"
  {
  }

  class CustomerViewPage {
    const idParam: Option<string>
    var customer: Option<ApiCustomer>
    var loading: bool

    constructor(idParam: Option<string>)
      ensures this.idParam == idParam && customer.None? && loading
    {
      this.idParam := idParam;
      customer := None;
      loading := true;
    }

    /** The page shows 'Loading...' until a customer is there. */
    predicate ShowsLoading()
      reads this
    {
      loading || customer.None?
    }

    /** `parseInt(id || "1")`: the id fetch, delete and status change all use. */
    function RequestedId(): (r: Num)
      reads this
      ensures CustomerForm.Truthy(idParam) ==> r == ParseInt(idParam.value)
      ensures !CustomerForm.Truthy(idParam) ==> r == Int(1)
    {
      assert ParseInt("1") == Int(1) by {
        ParseIntOfIntText(1);
        assert IntText(1) == "1";
      }
      ParseInt(CustomerForm.IdOrOne(idParam))
    }

    /** `fetchCustomer`: `Some` is the answer, `None` a failed request, which goes back to the list. */
    method FetchCustomer(outcome: Option<ApiCustomer>) returns (navigateTo: Option<string>)
      modifies this
      ensures !loading
      ensures outcome.Some? ==> customer == outcome && navigateTo.None?
      ensures outcome.None? ==> customer == old(customer) && navigateTo == Some("/customers")
    {
      navigateTo := None;
      if outcome.Some? {
        customer := outcome;
      } else {
        navigateTo := Some("/customers");
      }
      loading := false;
    }

    /**
     * `handleDelete`: asks the API to delete `RequestedId()` when confirmed, and goes back to
     * the list only when that succeeds. The page's own state does not change.
     */
    method HandleDelete(confirmed: bool, succeeded: bool) returns (request: Option<Num>, navigateTo: Option<string>)
      ensures request.Some? <==> confirmed
      ensures request.Some? ==> request.value == RequestedId()
      ensures navigateTo.Some? <==> confirmed && succeeded
      ensures navigateTo.Some? ==> navigateTo.value == "/customers"
    {
      request := None;
      navigateTo := None;
      if confirmed {
        request := Some(RequestedId());
        if succeeded {
          navigateTo := Some("/customers");
        }
      }
    }

    /** The status button's target for the customer on screen. */
    function ButtonTarget(): (r: string)
      reads this
      requires customer.Some?
      ensures r == "inactive" <==> customer.value.status == "active"
      ensures r == "active" || r == "inactive"
    {
      CustomerList.ToggleTarget(customer.value.status)
    }

    /**
     * `handleStatusChange`: the shown status becomes the new one only after a confirmed
     * request succeeds; no other field changes.
     */
    method HandleStatusChange(newStatus: string, confirmed: bool, succeeded: bool) returns (request: Option<(Num, string)>)
      requires customer.Some?
      modifies this
      ensures request.Some? <==> confirmed
      ensures request.Some? ==> request.value == (RequestedId(), newStatus)
      ensures confirmed && succeeded ==> customer == Some(old(customer).value.(status := newStatus))
      ensures !(confirmed && succeeded) ==> customer == old(customer)
      ensures loading == old(loading)
    {
      request := None;
      if confirmed {
        request := Some((RequestedId(), newStatus));
        if succeeded {
          customer := Some(customer.value.(status := newStatus));
        }
      }
    }
  }
}
