/**
 * The in-memory mock backend: a fixed credential check and three module-level arrays
 * (traders, files, products) changed in place by push, splice, index assignment and field writes.
 * Every call that names a missing identifier rejects with "<Entity> not found" and changes nothing.
 */
module MockApiService {
  import opened Common
  import opened Seqs
  import opened Text
  import opened Entities

  datatype LoginData = LoginData(token: string, user: User)

  /** `mockAuthAPI.login`: two fixed accounts, everything else is rejected. */
  function Login(email: string, password: string): (r: Result<LoginData>)
    ensures r.Ok? <==> password == "password" && (email == "admin@example.com" || email == "trader@example.com")
    ensures r.Ok? && email == "admin@example.com" ==> r.value.user.role == RoleText("admin") && r.value.token == "mock-jwt-token-admin"
    ensures r.Ok? && email == "trader@example.com" ==> r.value.user.role == RoleText("trader") && r.value.token == "mock-jwt-token-trader"
    ensures r.Ok? ==> r.value.user.email == email
    ensures r.Err? ==> r.message == "Invalid credentials"
  {
    if email == "admin@example.com" && password == "password" then
      Ok(LoginData("mock-jwt-token-admin", User("1", "Admin User", email, RoleText("admin"))))
    else if email == "trader@example.com" && password == "password" then
      Ok(LoginData("mock-jwt-token-trader", User("2", "Trader User", email, RoleText("trader"))))
    else
      Err("Invalid credentials")
  }

  /** `mockAuthAPI.register`: `{ id: '6', ...userData, status: 'Active' }`. */
  function Register(userData: map<string, string>): (r: map<string, string>)
    ensures r.Keys == userData.Keys + {"id", "status"}
    ensures r["status"] == "Active"
    ensures r["id"] == if "id" in userData then userData["id"] else "6"
    ensures forall k :: k in userData && k != "status" ==> r[k] == userData[k]
  {
    map["id" := "6"] + userData + map["status" := "Active"]
  }

  /** The record `create` appends: generated id unless the input has one; status, joinedDate, totalFiles forced. */
  function NewTrader(traders: seq<Trader>, input: TraderPatch, today: string): (t: Trader)
    ensures t.id == if input.id.Some? then input.id.value else "TRD" + IntText(|traders| + 1)
    ensures t.status == "Active" && t.joinedDate == today && t.totalFiles == 0
    ensures input.name.Some? ==> t.name == input.name.value
  {
    var base := Trader("TRD" + IntText(|traders| + 1), "", "", "", "", "", "", "", "", 0);
    var merged := MergeTrader(base, input);
    merged.(status := "Active", joinedDate := today, totalFiles := 0)
  }

  /** The record `upload` appends; the uploader falls back to 'Current User' for a missing or empty id. */
  function NewFile(files: seq<FileRecord>, fileName: string, traderId: Option<string>, today: string): (f: FileRecord)
    ensures f.id == "f" + IntText(|files| + 1) && f.number == |files| + 1
    ensures f.itemsCount == 0 && f.totalViews == 0
    ensures f.status == "Active" && f.security == "Protected"
    ensures f.uploadedBy == if traderId.Some? && traderId.value != "" then traderId.value else "Current User"
    ensures f.fileName == fileName && f.createdDate == today && f.lastUpdatedDate == today
  {
    FileRecord("f" + IntText(|files| + 1), |files| + 1, fileName, today, today, 0,
               if traderId.Some? && traderId.value != "" then traderId.value else "Current User",
               "Protected", "https://example.com/file" + IntText(|files| + 1), 0, "Active")
  }

  /** The record product `create` appends: generated ids unless given; createdDate forced. */
  function NewProduct(products: seq<Product>, input: ProductPatch, today: string): (p: Product)
    ensures p.id == if input.id.Some? then input.id.value else "p" + IntText(|products| + 1)
    ensures p.productId == if input.productId.Some? then input.productId.value else "PRD" + IntText(|products| + 1)
    ensures p.createdDate == today
  {
    var base := Product("p" + IntText(|products| + 1), "PRD" + IntText(|products| + 1),
                        "", "", "", "", 0.0, 0.0, 0, "");
    MergeProduct(base, input).(createdDate := today)
  }

  /** The module-level arrays of the mock backend. */
  class MockBackend {
    var traders: seq<Trader>
    var files: seq<FileRecord>
    var products: seq<Product>

    constructor()
      ensures traders == SeedTraders() && files == SeedFiles() && products == SeedProducts()
    {
      traders := SeedTraders();
      files := SeedFiles();
      products := SeedProducts();
    }

    // ----- traders -----

    method GetAllTraders() returns (r: seq<Trader>)
      ensures r == traders
    {
      r := traders;
    }

    method GetTraderById(id: string) returns (r: Result<Trader>)
      ensures r.Err? <==> forall i :: 0 <= i < |traders| ==> traders[i].id != id
      ensures r.Err? ==> r.message == "Trader not found"
      ensures r.Ok? ==> r.value.id == id && r.value in traders
      ensures r.Ok? ==> r.value == traders[IndexOfKey(traders, TraderKey, id)]
    {
      var i := IndexOfKey(traders, TraderKey, id);
      if i == -1 {
        r := Err("Trader not found");
      } else {
        r := Ok(traders[i]);
      }
    }

    method CreateTrader(input: TraderPatch, today: string) returns (t: Trader)
      modifies this
      ensures t == NewTrader(old(traders), input, today)
      ensures traders == old(traders) + [t]
      ensures files == old(files) && products == old(products)
    {
      t := NewTrader(traders, input, today);
      traders := traders + [t];
    }

    method UpdateTrader(id: string, patch: TraderPatch) returns (r: Result<Trader>)
      modifies this
      ensures var i := IndexOfKey(old(traders), TraderKey, id);
        if i == -1 then r == Err("Trader not found") && traders == old(traders)
        else traders == old(traders)[i := MergeTrader(old(traders)[i], patch)] && r == Ok(traders[i])
      ensures files == old(files) && products == old(products)
    {
      var i := IndexOfKey(traders, TraderKey, id);
      if i == -1 {
        r := Err("Trader not found");
      } else {
        traders := traders[i := MergeTrader(traders[i], patch)];
        r := Ok(traders[i]);
      }
    }

    method UpdateTraderStatus(id: string, status: string) returns (r: Result<Trader>)
      modifies this
      ensures var i := IndexOfKey(old(traders), TraderKey, id);
        if i == -1 then r == Err("Trader not found") && traders == old(traders)
        else traders == old(traders)[i := old(traders)[i].(status := status)] && r == Ok(traders[i])
      ensures files == old(files) && products == old(products)
    {
      var i := IndexOfKey(traders, TraderKey, id);
      if i == -1 {
        r := Err("Trader not found");
      } else {
        traders := traders[i := traders[i].(status := status)];
        r := Ok(traders[i]);
      }
    }

    method DeleteTrader(id: string) returns (r: Result<string>)
      modifies this
      ensures var i := IndexOfKey(old(traders), TraderKey, id);
        if i == -1 then r == Err("Trader not found") && traders == old(traders)
        else r == Ok("Trader deleted successfully") && traders == RemoveAt(old(traders), i)
      ensures files == old(files) && products == old(products)
    {
      var i := IndexOfKey(traders, TraderKey, id);
      assert i == IndexOfKey(old(traders), TraderKey, id);
      if i == -1 {
        r := Err("Trader not found");
      } else {
        traders := RemoveAt(traders, i);
        r := Ok("Trader deleted successfully");
      }
    }

    // ----- files -----

    method GetAllFiles() returns (r: seq<FileRecord>)
      ensures r == files
    {
      r := files;
    }

    method GetFileById(id: string) returns (r: Result<FileRecord>)
      ensures r.Err? <==> forall i :: 0 <= i < |files| ==> files[i].id != id
      ensures r.Err? ==> r.message == "File not found"
      ensures r.Ok? ==> r.value == files[IndexOfKey(files, FileKey, id)] && r.value.id == id
    {
      var i := IndexOfKey(files, FileKey, id);
      if i == -1 {
        r := Err("File not found");
      } else {
        r := Ok(files[i]);
      }
    }

    method UploadFile(fileName: string, traderId: Option<string>, today: string) returns (f: FileRecord)
      modifies this
      ensures f == NewFile(old(files), fileName, traderId, today)
      ensures files == old(files) + [f]
      ensures traders == old(traders) && products == old(products)
    {
      f := NewFile(files, fileName, traderId, today);
      files := files + [f];
    }

    /** `extractProducts`: `roll` stands for `Math.floor(Math.random() * 100)`. */
    method ExtractProducts(id: string, roll: nat) returns (r: Result<int>)
      requires roll < 100
      modifies this
      ensures var i := IndexOfKey(old(files), FileKey, id);
        if i == -1 then r == Err("File not found") && files == old(files)
        else r == Ok(roll + 50) && files == old(files)[i := old(files)[i].(itemsCount := roll + 50)]
      ensures r.Ok? ==> 50 <= r.value < 150
      ensures traders == old(traders) && products == old(products)
    {
      var i := IndexOfKey(files, FileKey, id);
      if i == -1 {
        r := Err("File not found");
      } else {
        files := files[i := files[i].(itemsCount := roll + 50)];
        r := Ok(roll + 50);
      }
    }

    method UpdateFileStatus(id: string, status: string) returns (r: Result<FileRecord>)
      modifies this
      ensures var i := IndexOfKey(old(files), FileKey, id);
        if i == -1 then r == Err("File not found") && files == old(files)
        else files == old(files)[i := old(files)[i].(status := status)] && r == Ok(files[i])
      ensures traders == old(traders) && products == old(products)
    {
      var i := IndexOfKey(files, FileKey, id);
      if i == -1 {
        r := Err("File not found");
      } else {
        files := files[i := files[i].(status := status)];
        r := Ok(files[i]);
      }
    }

    method IncrementViews(id: string) returns (r: Result<FileRecord>)
      modifies this
      ensures var i := IndexOfKey(old(files), FileKey, id);
        if i == -1 then r == Err("File not found") && files == old(files)
        else files == old(files)[i := old(files)[i].(totalViews := old(files)[i].totalViews + 1)]
             && r == Ok(files[i])
      ensures traders == old(traders) && products == old(products)
    {
      var i := IndexOfKey(files, FileKey, id);
      if i == -1 {
        r := Err("File not found");
      } else {
        files := files[i := files[i].(totalViews := files[i].totalViews + 1)];
        r := Ok(files[i]);
      }
    }

    method DeleteFile(id: string) returns (r: Result<string>)
      modifies this
      ensures var i := IndexOfKey(old(files), FileKey, id);
        if i == -1 then r == Err("File not found") && files == old(files)
        else r == Ok("File deleted successfully") && files == RemoveAt(old(files), i)
      ensures traders == old(traders) && products == old(products)
    {
      var i := IndexOfKey(files, FileKey, id);
      assert i == IndexOfKey(old(files), FileKey, id);
      if i == -1 {
        r := Err("File not found");
      } else {
        files := RemoveAt(files, i);
        r := Ok("File deleted successfully");
      }
    }

    // ----- products -----

    method GetAllProducts() returns (r: seq<Product>)
      ensures r == products
    {
      r := products;
    }

    method GetProductById(id: string) returns (r: Result<Product>)
      ensures r.Err? <==> forall i :: 0 <= i < |products| ==> products[i].id != id
      ensures r.Err? ==> r.message == "Product not found"
      ensures r.Ok? ==> r.value == products[IndexOfKey(products, ProductKey, id)] && r.value.id == id
    {
      var i := IndexOfKey(products, ProductKey, id);
      if i == -1 {
        r := Err("Product not found");
      } else {
        r := Ok(products[i]);
      }
    }

    method CreateProduct(input: ProductPatch, today: string) returns (p: Product)
      modifies this
      ensures p == NewProduct(old(products), input, today)
      ensures products == old(products) + [p]
      ensures traders == old(traders) && files == old(files)
    {
      p := NewProduct(products, input, today);
      products := products + [p];
    }

    method UpdateProduct(id: string, patch: ProductPatch) returns (r: Result<Product>)
      modifies this
      ensures var i := IndexOfKey(old(products), ProductKey, id);
        if i == -1 then r == Err("Product not found") && products == old(products)
        else products == old(products)[i := MergeProduct(old(products)[i], patch)] && r == Ok(products[i])
      ensures traders == old(traders) && files == old(files)
    {
      var i := IndexOfKey(products, ProductKey, id);
      if i == -1 {
        r := Err("Product not found");
      } else {
        products := products[i := MergeProduct(products[i], patch)];
        r := Ok(products[i]);
      }
    }

    method DeleteProduct(id: string) returns (r: Result<string>)
      modifies this
      ensures var i := IndexOfKey(old(products), ProductKey, id);
        if i == -1 then r == Err("Product not found") && products == old(products)
        else r == Ok("Product deleted successfully") && products == RemoveAt(old(products), i)
      ensures traders == old(traders) && files == old(files)
    {
      var i := IndexOfKey(products, ProductKey, id);
      assert i == IndexOfKey(old(products), ProductKey, id);
      if i == -1 {
        r := Err("Product not found");
      } else {
        products := RemoveAt(products, i);
        r := Ok("Product deleted successfully");
      }
    }
  }

  // ----- properties of the operations -----

  /** `delete` (splice at the first match) removes exactly one occurrence of the id and keeps the rest in order. */
  lemma DeleteRemovesOneOccurrence<T>(s: seq<T>, key: T -> string, id: string)
    requires IndexOfKey(s, key, id) != -1
    ensures var i := IndexOfKey(s, key, id);
      multiset(Map(RemoveAt(s, i), key))[id] == multiset(Map(s, key))[id] - 1
      && IsSubsequence(RemoveAt(s, i), s)
  {
    var i := IndexOfKey(s, key, id);
    MapRemoveAt(s, i, key);
    RemoveAtMultiset(Map(s, key), i);
    RemoveAtIsSubsequence(s, i);
  }

  lemma {:induction false} RemoveAtIsSubsequence<T>(s: seq<T>, i: int)
    requires 0 <= i < |s|
    ensures IsSubsequence(RemoveAt(s, i), s)
    decreases i
  {
    if i == 0 {
      assert RemoveAt(s, 0) == s[1..];
      SubsequenceReflexive(s[1..]);
    } else {
      RemoveAtIsSubsequence(s[1..], i - 1);
      assert RemoveAt(s, i)[1..] == RemoveAt(s[1..], i - 1);
    }
  }

  /** With unique ids, a deleted id can no longer be found. */
  lemma DeleteUniqueIdIsGone<T>(s: seq<T>, key: T -> string, id: string)
    requires NoDuplicates(Map(s, key)) && IndexOfKey(s, key, id) != -1
    ensures IndexOfKey(RemoveAt(s, IndexOfKey(s, key, id)), key, id) == -1
  {
    var i := IndexOfKey(s, key, id);
    var r := RemoveAt(s, i);
    forall k | 0 <= k < |r|
      ensures key(r[k]) != id
    {
      if k >= i {
        assert Map(s, key)[k + 1] != Map(s, key)[i];
      }
    }
  }

  /** The generated trader id is `length + 1`, so a delete followed by a create repeats a live id. */
  lemma TraderIdReusedAfterDelete(input: TraderPatch, today: string)
    requires input.id.None?
    ensures var t1 := NewTrader(SeedTraders(), input, today);
      var afterDelete := RemoveAt(SeedTraders() + [t1], 0);
      var t2 := NewTrader(afterDelete, input, today);
      t1.id == "TRD6" && t2.id == "TRD6" && t1 in afterDelete
  {
    var t1 := NewTrader(SeedTraders(), input, today);
    var afterDelete := RemoveAt(SeedTraders() + [t1], 0);
    assert |afterDelete| == 5;
    assert afterDelete[4] == t1;
  }
}
