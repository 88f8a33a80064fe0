# Super-Admin dashboard: a verified model of its core

This project models the core of the Super-Admin dashboard, a React/TypeScript single-page
application for administering customers, traders, uploaded price files and the products
extracted from those files. The dashboard has no server of its own. Its data comes from
three in-browser stand-ins, and its screens filter, page and edit that data in component
state. The model covers:

- **Storage and mock back ends**
  - the `localStorage` customer store (`LocalStorage`);
  - the mock trader/file/product/auth service (`MockApiService`, with `Entities` for its records and seed lists);
  - the mock customer API (`MockApi`).
- **Sign-in flow**
  - the form validators (`Validators`, `Register`);
  - the authentication provider (`Auth`);
  - the route table with its guard (`Routes`);
  - the login page's redirect by role (`LoginPage`).
- **Customer screens**
  - the customer table (`CustomerList`);
  - the add/edit form and the multipart body it submits (`CustomerForm`, `FormDataModel`);
  - the customer detail page (`CustomerView`).
- **Management lists**: products, files and traders (`ProductsPage`, `FilesPage`, `TradersList`). Each filters by role, a search term and two drop-downs, and builds its drop-down options from the distinct values of the seed list.
- **Detail screens**
  - the extracted-products view of one file (`FileDetail`);
  - the trader page with its simulated upload (`TraderDetail`).

`Common`, `Seqs`, `Text` and `Paging` hold shared values and JavaScript behaviours. They cover:

- JavaScript values: `Option`/`Result`, `toLowerCase`, `includes` and `parseInt` with `NaN`;
- array operations: `Array.prototype.filter`, `slice` with negative indices, and `Array.from(new Set(...))` in first-occurrence order;
- page slicing with `Math.ceil`.

Every component whose source updates state in place is a `class`. Its fields are the React state variables. Each handler is a `method` whose `modifies`/`ensures` clauses give the whole new state. Each filter is a function specified by membership and order. Each stateful page is tied to that function: its `Valid()` invariant, or a handler's postcondition, equates the state with the function's result. Lemmas prove the behaviours the code exhibits, including several surprising ones:

- `mockGetCustomerById` always answers the first customer.
- A delete followed by an add reuses a `length + 1` id that another record still holds. This holds for the customer store, the trader service and the trader page's upload.
- A 24-character database id makes the list's delete button pass `NaN`, so that row cannot be deleted.
- The mock administrator's role is the text `'admin'`, so the login page sends them to `/files`.
- A product deleted on the products page comes back on the next filter change. On the file detail page it stays deleted.
- The customer form submits only the documents of the latest file choice.
- Closing the trader page's upload dialog does not stop its upload timer.

## Model

| member | source | states |
|---|---|---|
| LocalStorage.Contents | src/services/localStorageService.ts:24-88 | An existing stored list is returned unchanged. With no entry, the three default customers ids 1, 2, 3 (active, active, inactive) are returned. |
| LocalStorage.Lookup | src/services/localStorageService.ts:91-95 | Finds the first customer whose `parseInt(id)` strictly equals the requested number, and none exactly when no customer does. |
| LocalStorage.AddedCustomer | src/services/localStorageService.ts:98-110 | The new record copies every field of the input and gets the id `String(length + 1)`, status active and the current time. |
| LocalStorage.MergeCustomer | src/services/localStorageService.ts:113-130 | An empty patch leaves the customer unchanged. A status-only patch changes the status and nothing else. |
| LocalStorage.Updated | src/services/localStorageService.ts:113-130 | The list keeps its length. An unknown id leaves it unchanged; otherwise only the first matching position is merged. |
| LocalStorage.Deleted | src/services/localStorageService.ts:133-146 | Every customer with the number is removed, and every other customer is kept as many times as it occurred, in order. The length is unchanged exactly when nothing matched. |
| LocalStorage.DeletedCounts | src/services/localStorageService.ts:133-146 | The `filter` in `deleteCustomer` keeps every copy of each customer whose number differs and no customer whose number matches. |
| LocalStorage.CustomerStore.constructor | src/services/localStorageService.ts:24-28 | The store starts with whatever `localStorage` holds. |
| LocalStorage.CustomerStore.Initialize | src/services/localStorageService.ts:24-81 | Seeds the defaults only when nothing is stored; an existing entry is kept. |
| LocalStorage.CustomerStore.GetCustomers | src/services/localStorageService.ts:84-88 | Returns the contents and leaves them stored. |
| LocalStorage.CustomerStore.GetCustomerById | src/services/localStorageService.ts:91-95 | Answers the lookup over the (seeded) contents. |
| LocalStorage.CustomerStore.AddCustomer | src/services/localStorageService.ts:98-110 | Appends the added record and returns it. |
| LocalStorage.CustomerStore.UpdateCustomer | src/services/localStorageService.ts:113-130 | Stores the updated list. Returns the merged record, or nothing for an unknown id. |
| LocalStorage.CustomerStore.DeleteCustomer | src/services/localStorageService.ts:133-146 | Stores the filtered list. Returns true exactly when a customer was removed. |
| LocalStorage.CustomerStore.ChangeCustomerStatus | src/services/localStorageService.ts:149-152 | A status change is an update with a status-only patch. Reports whether the id existed. |
| LocalStorage.FirstUseIsSeeded | src/services/localStorageService.ts:24-88 | The first read seeds a non-empty list. Reading again returns the same list. |
| LocalStorage.StatusChangeOnlyStatus | src/services/localStorageService.ts:149-152 | At the matching position only the status changes, and every other record is untouched. |
| LocalStorage.EmptyUpdateIsLookup | src/services/localStorageService.ts:113-130 | An empty patch changes nothing. |
| LocalStorage.SeedNumbers | src/services/localStorageService.ts:24-81 | There are three default customers, and they answer the lookups 1, 2 and 3. |
| LocalStorage.OnlyFirstSeedIsOne | src/services/localStorageService.ts:24-95 | No default customer but the first answers the lookup of 1. |
| LocalStorage.DeleteFirstSeed | src/services/localStorageService.ts:133-146 | Deleting customer 1 from the defaults leaves exactly customers 2 and 3, in order. |
| LocalStorage.DuplicateIdAfterDelete | src/services/localStorageService.ts:103-107 | After deleting customer 1, adding a customer gives id 3 again, so two records share id 3. |
| MockApiService.Login | src/services/mockAPIService.ts:201-232 | Succeeds exactly for the admin and trader addresses with password `password`. The role is the text `admin` or `trader` with the matching token; otherwise the answer is "Invalid credentials". |
| MockApiService.Register | src/services/mockAPIService.ts:234-237 | Echoes every field of the input except the status, which becomes `Active`. Supplies id `6` when the input has none. |
| MockApiService.NewTrader | src/services/mockAPIService.ts:272-283 | The new trader is active, joined today, with no files. Its id is `TRD` + (count + 1) unless one is given. |
| MockApiService.NewFile | src/services/mockAPIService.ts:332-349 | The uploaded file is `f` + (count + 1), active, protected, with no items or views. It is uploaded by the trader id, or by "Current User" when none is given. |
| MockApiService.NewProduct | src/services/mockAPIService.ts:410-420 | The new product's id and product id default to `p`/`PRD` + (count + 1). It is created today. |
| MockApiService.MockBackend.constructor | src/services/mockAPIService.ts:5-198 | The service starts from the seed traders, files and products. |
| MockApiService.MockBackend.GetAllTraders | src/services/mockAPIService.ts:258-261 | Returns the current traders. |
| MockApiService.MockBackend.GetTraderById | src/services/mockAPIService.ts:263-270 | Fails with "Trader not found" exactly when no trader has the id. Otherwise returns the first one with it. |
| MockApiService.MockBackend.CreateTrader | src/services/mockAPIService.ts:272-283 | Appends the new trader; files and products are unchanged. |
| MockApiService.MockBackend.UpdateTrader | src/services/mockAPIService.ts:285-293 | Merges the patch into the first trader with the id, or fails when there is none. The other collections are unchanged. |
| MockApiService.MockBackend.UpdateTraderStatus | src/services/mockAPIService.ts:295-303 | Sets only the status of the first matching trader, or fails. |
| MockApiService.MockBackend.DeleteTrader | src/services/mockAPIService.ts:305-313 | Removes the first matching trader, or fails and leaves the list. |
| MockApiService.MockBackend.GetAllFiles | src/services/mockAPIService.ts:318-321 | Returns the current files. |
| MockApiService.MockBackend.GetFileById | src/services/mockAPIService.ts:323-330 | Fails with "File not found" exactly when no file has the id. |
| MockApiService.MockBackend.UploadFile | src/services/mockAPIService.ts:332-349 | Appends the new file record. |
| MockApiService.MockBackend.ExtractProducts | src/services/mockAPIService.ts:351-361 | For a known file, sets its item count to a number in 50..149 and returns it. Fails for an unknown id. |
| MockApiService.MockBackend.UpdateFileStatus | src/services/mockAPIService.ts:363-371 | Sets only the status of the first matching file, or fails. |
| MockApiService.MockBackend.IncrementViews | src/services/mockAPIService.ts:373-381 | Adds one to the first matching file's views, or fails. |
| MockApiService.MockBackend.DeleteFile | src/services/mockAPIService.ts:383-391 | Removes the first matching file, or fails. |
| MockApiService.MockBackend.GetAllProducts | src/services/mockAPIService.ts:396-399 | Returns the current products. |
| MockApiService.MockBackend.GetProductById | src/services/mockAPIService.ts:401-408 | Fails with "Product not found" exactly when no product has the id. |
| MockApiService.MockBackend.CreateProduct | src/services/mockAPIService.ts:410-420 | Appends the new product. |
| MockApiService.MockBackend.UpdateProduct | src/services/mockAPIService.ts:422-430 | Merges the patch into the first matching product, or fails. |
| MockApiService.MockBackend.DeleteProduct | src/services/mockAPIService.ts:432-440 | Removes the first matching product, or fails. |
| MockApiService.DeleteRemovesOneOccurrence | src/services/mockAPIService.ts:305-313 | A delete by `findIndex`/`splice` shortens the list by one and keeps the other records in order. |
| MockApiService.RemoveAtIsSubsequence | src/services/mockAPIService.ts:383-391 | What a delete leaves is a subsequence of the original list. |
| MockApiService.DeleteUniqueIdIsGone | src/services/mockAPIService.ts:432-440 | When ids are unique, the deleted id is no longer found. |
| MockApiService.TraderIdReusedAfterDelete | src/services/mockAPIService.ts:272-283 | After deleting a seed trader, the next created trader receives an id another trader still holds. |
| Entities.MergeTrader | src/services/mockAPIService.ts:285-293 | The spread update keeps the record for an empty patch, keeps the id unless the patch sets it, and takes a given status. |
| Entities.MergeProduct | src/services/mockAPIService.ts:422-430 | The spread update keeps the product for an empty patch and keeps the id unless the patch sets it. |
| MockApi.MockRegister | src/services/mockApi.ts:2-35 | Missing fields, an address without `@` and a password shorter than 6 characters each give their error message, in that order. Success is exactly when none applies, and returns user 1. |
| MockApi.MockLogin | src/services/mockApi.ts:37-54 | Succeeds exactly for `admin@example.com` / `Password123!` with the fixed token. Otherwise "Invalid credentials". |
| MockApi.MockCustomersShape | src/services/mockApi.ts:72-181 | `mockGetCustomers` answers six records: the John Doe record four times, then Jane Smith (inactive) and Robert Johnson (active), with ids ending in 1, 2 and 3. |
| MockApi.MockCustomersShareIds | src/services/mockApi.ts:72-181 | The six mock customers do not have distinct ids. |
| MockApi.LookupIn | src/services/mockApi.ts:187-191 | Over any non-empty list, the answer is in the list and is the first record whose id contains the text, or the first record when none does. |
| MockApi.MockGetCustomerById | src/services/mockApi.ts:183-192 | For any number, `NaN` included, the answer is the first mock customer whose id contains the number's text, or the first customer when none does. |
| MockApi.MockLookupAlwaysFirst | src/services/mockApi.ts:183-192 | For every number, `NaN` included, the lookup answers the first mock customer. Its id contains every integer text found in the others, and no id contains `NaN`. |
| MockApi.NoIdContainsNaN | src/services/mockApi.ts:72-192 | No mock customer's id contains `NaN`, so a `NaN` lookup falls back to the first customer. |
| MockApi.LookupAnswersFirst | src/services/mockApi.ts:187-191 | When every record whose id contains the text has that text in the first record's id too, the lookup answers the first record. |
| MockApi.OccurrenceBeforeLast | src/services/mockApi.ts:183-192 | A substring found after a digit is appended was already present, or it ends in that digit. |
| MockApi.IntTextHasNoE | src/services/mockApi.ts:183-192 | No decimal rendering of an integer contains `e`. |
| MockApi.LastDigitsInFirst | src/services/mockApi.ts:72-181 | The first mock id contains the digits the other ids end in. |
| MockApi.OccurrenceCarriesOver | src/services/mockApi.ts:183-192 | A search text found in one id is found in the id differing only in its last digit, when that digit is not in the text. |
| MockApi.EchoForm | src/services/mockApi.ts:194-262 | The saved record reads each field back from the submitted form. `isSubscribed` is exactly the text `true`, and the status is active. |
| MockApi.MockCreateCustomer | src/services/mockApi.ts:194-227 | Creation echoes the form under the id prefix + the clock reading, with the success message. |
| MockApi.MockUpdateCustomer | src/services/mockApi.ts:229-262 | An update echoes the form under the id prefix + the number's text, with the success message. |
| MockApi.UpdateIdCarriesNumber | src/services/mockApi.ts:229-262 | The updated record's id ends in the requested number. |
| MockApi.MockDeleteCustomer | src/services/mockApi.ts:264-272 | A delete always reports success. |
| MockApi.MockChangeCustomerStatus | src/services/mockApi.ts:274-289 | A status change always succeeds and echoes the id and the status. |
| Validators.ContainsCharIn | src/utils/validators.ts:24-36 | True exactly when some character of the password is in the class. |
| Validators.AllCharsIn | src/utils/validators.ts:51-54 | True exactly when the text is non-empty and every character is in the class. |
| Validators.ResetPasswordMeetsLogin | src/utils/validators.ts:4-36 | A password accepted by the reset form, with an address accepted by the forgot form, passes the login form. |
| Validators.PhoneRule | src/utils/validators.ts:51-54 | A phone number is valid exactly when it is non-empty and made only of digits, `+ - ( )` and spaces. |
| Validators.StrongPasswordWitnesses | src/utils/validators.ts:24-36 | A strong password has at least 8 characters and contains an upper-case letter, a digit and a special character. |
| Validators.LoginValid | src/utils/validators.ts:4-13 | `loginSchema`: a non-empty address the email test accepts and a non-empty password of at least 6 characters. |
| Validators.ForgotPasswordValid | src/utils/validators.ts:16-21 | `forgotPasswordSchema`: a non-empty address the email test accepts. |
| Validators.StrongPassword | src/utils/validators.ts:25-31 | The new password: non-empty, at least 8 characters, with an upper-case letter, a digit and one of the listed special characters. |
| Validators.ResetPasswordValid | src/utils/validators.ts:24-36 | `resetPasswordSchema`: a strong new password and a non-empty confirmation equal to it. |
| Validators.PhoneValid | src/utils/validators.ts:51-54 | `phoneNo`: required, and matching `^[0-9+\-\s()]+$`. |
| Validators.CustomerValid | src/utils/validators.ts:39-71 | `customerSchema`: name of at least 2, accepted email, company, valid phone, gender, country and state present, address of at least 5, notes of at most 500 characters. |
| Register.Validate | src/pages/Register.tsx:37-61 | Name and email errors appear exactly when those fields are empty or the address is badly shaped. The password error appears when it is empty or shorter than 6. The confirm error appears exactly when the two passwords differ. |
| Register.AcceptableIff | src/pages/Register.tsx:37-61 | The form has no error exactly when the name is non-empty, the address is well shaped, the password has at least 6 characters and the confirmation matches. |
| Register.EmailShaped | src/pages/Register.tsx:46 | `/\S+@\S+\.\S+/` finds a match: non-space characters, `@`, non-space characters, `.`, a non-space character. |
| Register.Acceptable | src/pages/Register.tsx:37-61 | `validate` returns no error at all. |
| Register.OtherFieldsNeverError | src/pages/Register.tsx:37-61 | Company, phone and subscription never produce an error. |
| Register.ConfirmIndependent | src/pages/Register.tsx:56-58 | The confirm error depends only on the two password fields. |
| Register.EmailShapedHasAt | src/pages/Register.tsx:44-48 | A well-shaped address contains `@`. |
| Register.AcceptedFormPassesMockRegister | src/pages/Register.tsx:37-61 | An accepted form is accepted by the mock register as user 1. |
| Register.MockEmailCheckIsLooser | src/services/mockApi.ts:2-35 | `a@b` is refused by the form but passes the mock's `@` check. |
| Auth.Mount | src/context/AuthContext.tsx:26-37 | A non-empty stored token authenticates. It restores the stored user when one is stored, and otherwise leaves `user` as it was. Without a token the state is unchanged. Storage is never written. |
| Auth.LoginStep | src/context/AuthContext.tsx:39-55 | Success exactly when the call returned data. Success authenticates and stores the token and user; failure changes nothing. |
| Auth.LogoutStep | src/context/AuthContext.tsx:58-64 | Logging out clears the session and both storage entries. |
| Auth.AuthProvider.constructor | src/context/AuthContext.tsx:26-37 | The provider's first state is the mount of the stored entries. |
| Auth.AuthProvider.Login | src/context/AuthContext.tsx:39-55 | The provider moves by the login step and reports its success. |
| Auth.AuthProvider.Logout | src/context/AuthContext.tsx:58-64 | The provider moves by the logout step and navigates to `/login`. |
| Auth.AuthProvider.ForgotPassword | src/context/AuthContext.tsx:66-74 | Sends the forgot request carrying the address, and reports success exactly when that request did not throw. The session is untouched. |
| Auth.AuthProvider.ResetPassword | src/context/AuthContext.tsx:76-84 | Sends the reset request carrying the token and the new password, and reports success exactly when that request did not throw. The session is untouched. |
| Auth.LogoutIdempotent | src/context/AuthContext.tsx:58-64 | Logging out twice is the same as once. |
| Auth.ReloadAfterLogout | src/context/AuthContext.tsx:26-64 | A reload after logout stays signed out. |
| Auth.ReloadAfterLogin | src/context/AuthContext.tsx:26-55 | A reload after login restores the session exactly when the token is non-empty. |
| Auth.MountIdempotent | src/context/AuthContext.tsx:26-37 | Running the mount effect again changes nothing. |
| Routes.ProtectedRoute | src/AppRoutes.tsx:35-50 | Signed out goes to `/login`. A required role the user's numeric role differs from goes to `/dashboard`. Otherwise the children render. |
| Routes.TextRoleNeverPasses | src/AppRoutes.tsx:45-49 | A user whose role is text never passes a role check. |
| Routes.FirstMatch | src/AppRoutes.tsx:55-268 | No element exactly when no route matches. Otherwise the element of a matching route. |
| Routes.RouteTable | src/AppRoutes.tsx:55-268 | The declared routes in order: the guest pages, the dashboard pages only when signed in, then the fallbacks. |
| Routes.Resolve | src/AppRoutes.tsx:55-268 | What `<Routes>` renders for a path: the first match in the table. |
| Routes.FirstMatchPrefix | src/AppRoutes.tsx:55-268 | A match in the earlier routes hides the later ones. |
| Routes.FirstMatchSkip | src/AppRoutes.tsx:55-268 | Earlier routes that do not match are skipped. |
| Routes.FirstMatchAt | src/AppRoutes.tsx:55-268 | The first matching route decides. |
| Routes.ResolvePublic | src/AppRoutes.tsx:55-92 | A path the public routes answer gets the same answer from the whole table, whatever is declared after them. |
| Routes.RootRedirects | src/AppRoutes.tsx:57-60 | `/` redirects to `/dashboard` when signed in, else to `/login`. |
| Routes.GuestPages | src/AppRoutes.tsx:61-92 | Login, register and forgot-password render for guests and redirect signed-in users to `/dashboard`. |
| Routes.ResetPageForEveryone | src/AppRoutes.tsx:61-92 | The reset-password page with a token renders whether or not the user is signed in. |
| Routes.GuestNeverSeesDashboard | src/AppRoutes.tsx:55-268 | A guest never gets a dashboard screen: every path resolves to nothing, a redirect or a guest form. |
| Routes.DashboardScreensAreNotGuestForms | src/AppRoutes.tsx:95-248 | No protected route renders a sign-in form. |
| Routes.GuestFallbacks | src/AppRoutes.tsx:251-268 | A guest asking for `/dashboard` or `/customers` is sent to `/login`. |
| Routes.SignedInDashboard | src/AppRoutes.tsx:95-248 | A signed-in user gets the dashboard at `/dashboard`. |
| Routes.SpecificBeforeGeneral | src/AppRoutes.tsx:139-180 | `/traders/create` renders the create screen, not the detail screen of a trader named `create`. |
| LoginPage.AfterLogin | src/pages/auth/Login.tsx:36-53 | Failure shows the error message. Success with a stored token navigates to `/traders` for role 1, `/files` for any other role, and does nothing without a token. |
| LoginPage.SubmitFlow | src/pages/auth/Login.tsx:36-53 | A submit: the provider's login step, then the redirect read from the storage that step wrote. |
| LoginPage.MockAdminGoesToFiles | src/pages/auth/Login.tsx:40-48 | The mock administrator's text role sends them to `/files`. |
| LoginPage.SuperAdminGoesToTraders | src/pages/auth/Login.tsx:40-48 | A numeric super-admin is sent to `/traders`. |
| LoginPage.FailureShowsError | src/pages/auth/Login.tsx:50-52 | A failed login shows the error message. |
| CustomerList.FilterCustomers | src/pages/CustomerList.tsx:69-80 | The shown customers are exactly those matching the search in name, email or company and the status filter, each as many times as in the list, in their original order. |
| CustomerList.NoFilterShowsAll | src/pages/CustomerList.tsx:69-80 | No search and status `all` shows every customer. |
| CustomerList.ToggleTarget | src/pages/CustomerList.tsx:362 | The status button offers `inactive` exactly for an active customer, else `active`. |
| CustomerList.CustomerListPage.Visible | src/pages/CustomerList.tsx:196-199 | The visible rows are `Rows` of the filtered list: the rows from `page * rowsPerPage` in order, a full page while the list lasts, only the remainder on the last page, and none past it. |
| CustomerList.CustomerListPage.constructor | src/pages/CustomerList.tsx:51-61 | The table starts empty on page 0 with 10 rows, no search, status `all`, no selection, target status `active` and both dialogs closed. |
| CustomerList.CustomerListPage.FetchCustomers | src/pages/CustomerList.tsx:82-139 | Fetching loads the page's customer list, re-filters and returns to page 0. Every other field, the selection, target status and dialogs included, stays. |
| CustomerList.CustomerListPage.FilterEffect | src/pages/CustomerList.tsx:69-80 | The filtered list becomes the filter of the customers, and paging returns to 0. |
| CustomerList.CustomerListPage.SetSearchTerm | src/pages/CustomerList.tsx:69-80 | A new search re-filters and returns to page 0. Every other field stays. |
| CustomerList.CustomerListPage.SetStatusFilter | src/pages/CustomerList.tsx:69-80 | A new status filter re-filters and returns to page 0. Every other field stays. |
| CustomerList.CustomerListPage.HandleDelete | src/pages/CustomerList.tsx:141-144 | Remembers the number and opens the delete dialog. Every other field, the target status and the status dialog included, stays. |
| CustomerList.CustomerListPage.HandleStatusChange | src/pages/CustomerList.tsx:162-166 | Remembers the number and target status and opens the status dialog. Every other field, the delete dialog included, stays. |
| CustomerList.CustomerListPage.ConfirmDelete | src/pages/CustomerList.tsx:146-160 | With a selection: removes every row whose id is the number's text, keeps the invariant, clears the selection, closes the delete dialog and returns to page 0, leaving the target status and the status dialog. Without a selection nothing changes. |
| CustomerList.CustomerListPage.ConfirmStatusChange | src/pages/CustomerList.tsx:168-184 | With a selection: sets the target status on every row whose id is the number's text, clears the selection, closes the status dialog and returns to page 0, leaving the target status and the delete dialog. Without a selection nothing changes. |
| CustomerList.CustomerListPage.HandleChangePage | src/pages/CustomerList.tsx:186-188 | Moves to the requested page. Every other field stays. |
| CustomerList.CustomerListPage.HandleChangeRowsPerPage | src/pages/CustomerList.tsx:190-193 | Sets the rows per page and returns to page 0. Every other field stays. |
| CustomerList.WithStatus | src/pages/CustomerList.tsx:168-184 | Rows with the id get the new status; every other row is unchanged. |
| CustomerList.StatusChangeOnlyStatus | src/pages/CustomerList.tsx:168-184 | A status change alters no field but the status. |
| CustomerList.ShortIdRoundTrip | src/pages/CustomerList.tsx:353 | For a decimal id of at most 6 digits, the button's number renders back to the id. |
| CustomerList.ButtonNumber | src/pages/CustomerList.tsx:353 | `parseInt(customer._id.slice(-6))`, the number the row's buttons pass on. |
| CustomerList.ShortNatText | src/pages/CustomerList.tsx:353 | Numbers below one million have at most 6 digits. |
| CustomerList.NatTextLength | src/pages/CustomerList.tsx:353 | A number below 10^k has at most k digits. |
| CustomerList.DeleteByButtonRemovesRow | src/pages/CustomerList.tsx:146-160 | Deleting by a short decimal id's button removes that row and keeps every row with another id. |
| CustomerList.LongIdButtonIsNaN | src/pages/CustomerList.tsx:353 | The last six characters of a database id such as `690b1a2b4e7e8d1234abcde1` start with a letter, so the button passes `NaN`. |
| CustomerList.LongIdCannotBeDeleted | src/pages/CustomerList.tsx:353 | For that id the button passes `NaN`, and the delete then leaves the list unchanged, since no id reads `NaN`. |
| ProductsPage.Narrow | src/pages/products/ProductsManagement.tsx:144-172 | The result holds exactly the products that pass the role, search, category and trader filters, each as many times as in the input, in order. |
| ProductsPage.NarrowCounts | src/pages/products/ProductsManagement.tsx:144-172 | Each filter step keeps every copy of a product that passes it, so the four steps keep exactly the copies that pass all four. |
| ProductsPage.FilterProducts | src/pages/products/ProductsManagement.tsx:144-172 | The same, over the page's own product list. |
| ProductsPage.CategoryOptions | src/pages/products/ProductsManagement.tsx:181 | Each category of the list appears exactly once, in order of first appearance. |
| ProductsPage.TraderOptions | src/pages/products/ProductsManagement.tsx:182 | Each trader name of the list appears exactly once, in order of first appearance. |
| ProductsPage.NarrowStepwise | src/pages/products/ProductsManagement.tsx:144-172 | Reassigning the result filter by filter yields exactly the combined filter. |
| ProductsPage.ProductsManagementPage.CurrentProducts | src/pages/products/ProductsManagement.tsx:175-178 | The current page is `Page` of the filtered products: the products from `(currentPage - 1) * 10` in order. It holds 10 of them before the last page, the remainder on the last page and none past it. So `Paging.PagesCoverList` applies to it. |
| ProductsPage.ProductsManagementPage.constructor | src/pages/products/ProductsManagement.tsx:132-137 | The page starts on page 1 with no filter. |
| ProductsPage.ProductsManagementPage.FilterEffect | src/pages/products/ProductsManagement.tsx:144-172 | The filtered list becomes the filter of the page's original list, and the page returns to 1. |
| ProductsPage.ProductsManagementPage.SetSearchTerm | src/pages/products/ProductsManagement.tsx:144-172 | A new search re-filters from the original list. |
| ProductsPage.ProductsManagementPage.SetCategory | src/pages/products/ProductsManagement.tsx:144-172 | A new category re-filters from the original list. |
| ProductsPage.ProductsManagementPage.SetTrader | src/pages/products/ProductsManagement.tsx:144-172 | A new trader re-filters from the original list. |
| ProductsPage.ProductsManagementPage.HandlePageChange | src/pages/products/ProductsManagement.tsx:175-178 | Moves to the page; nothing else changes. |
| ProductsPage.ProductsManagementPage.HandleDeleteProduct | src/pages/products/ProductsManagement.tsx:192-199 | After confirmation, removes the id from both lists. |
| ProductsPage.NoFiltersShowAll | src/pages/products/ProductsManagement.tsx:144-172 | A non-trader with no filters sees every product. |
| ProductsPage.FilterChangeRestoresDeleted | src/pages/products/ProductsManagement.tsx:144-199 | A deleted product that passes the filters is shown again after any filter change. |
| ProductsPage.TraderSeesOwnProducts | src/pages/products/ProductsManagement.tsx:148-150 | A trader sees only products under their own name. |
| ProductsPage.CategoryOptionsStartWithSeed | src/pages/products/ProductsManagement.tsx:181 | The category options begin with the seed products' categories in order. |
| FilesPage.Narrow | src/pages/files/FilesManagement.tsx:113-139 | The result holds exactly the files that pass the uploader, search, status and security filters, each as many times as in the input, in order. |
| FilesPage.NarrowCounts | src/pages/files/FilesManagement.tsx:113-139 | Each filter step keeps every copy of a file that passes it, so the four steps keep exactly the copies that pass all four. |
| FilesPage.FilterFiles | src/pages/files/FilesManagement.tsx:113-139 | The same, over the page's file list. |
| FilesPage.StatusOptions | src/pages/files/FilesManagement.tsx:148 | Each status appears once, in order of first appearance. |
| FilesPage.SecurityOptions | src/pages/files/FilesManagement.tsx:149 | Each security level appears once, in order of first appearance. |
| FilesPage.NarrowStepwise | src/pages/files/FilesManagement.tsx:113-139 | Reassigning the result filter by filter yields exactly the combined filter. |
| FilesPage.FilesManagementPage.CurrentFiles | src/pages/files/FilesManagement.tsx:142-145 | The current page is `Page` of the filtered files: the files from `(currentPage - 1) * 10` in order. It holds 10 of them before the last page, the remainder on the last page and none past it. So `Paging.PagesCoverList` applies to it. |
| FilesPage.FilesManagementPage.constructor | src/pages/files/FilesManagement.tsx:101-106 | The page starts on page 1 with no filter. |
| FilesPage.FilesManagementPage.FilterEffect | src/pages/files/FilesManagement.tsx:113-139 | The filtered list becomes the filter of the original list, and the page returns to 1. |
| FilesPage.FilesManagementPage.SetSearchTerm | src/pages/files/FilesManagement.tsx:113-139 | A new search re-filters. |
| FilesPage.FilesManagementPage.SetStatus | src/pages/files/FilesManagement.tsx:113-139 | A new status re-filters. |
| FilesPage.FilesManagementPage.SetSecurity | src/pages/files/FilesManagement.tsx:113-139 | A new security level re-filters. |
| FilesPage.FilesManagementPage.HandlePageChange | src/pages/files/FilesManagement.tsx:142-145 | Moves to the page. |
| FilesPage.FilesManagementPage.HandleDeleteFile | src/pages/files/FilesManagement.tsx:159-166 | After confirmation, removes the id from both lists. |
| FilesPage.FileStatusColor | src/pages/files/FilesManagement.tsx:168-177 | `success` exactly for Active, otherwise `default`. |
| FilesPage.SecurityColor | src/pages/files/FilesManagement.tsx:179-188 | `success` exactly for Public and `warning` exactly for Protected, otherwise `default`. |
| FilesPage.NoFiltersShowAll | src/pages/files/FilesManagement.tsx:113-139 | A non-trader with no filters sees every file. |
| FilesPage.TraderSeesOwnFiles | src/pages/files/FilesManagement.tsx:117-119 | A trader sees only files they uploaded. |
| FilesPage.SearchIgnoresOtherFields | src/pages/files/FilesManagement.tsx:121-127 | A file whose name and uploader do not contain the search is hidden. |
| TradersList.Narrow | src/pages/traders/TradersList.tsx:98-121 | The result holds exactly the traders matching the search in name, email, id or region, the tier and the region, each as many times as in the input, in order. |
| TradersList.NarrowCounts | src/pages/traders/TradersList.tsx:98-121 | Each filter step keeps every copy of a trader that passes it, so the three steps keep exactly the copies that pass all three. |
| TradersList.FilterTraders | src/pages/traders/TradersList.tsx:98-121 | The same, over the page's trader list. |
| TradersList.TierOptions | src/pages/traders/TradersList.tsx:130 | Each tier appears once, in order of first appearance. |
| TradersList.RegionOptions | src/pages/traders/TradersList.tsx:131 | Each region appears once, in order of first appearance. |
| TradersList.NarrowStepwise | src/pages/traders/TradersList.tsx:98-121 | Reassigning the result filter by filter yields exactly the combined filter. |
| TradersList.TradersListPage.CurrentTraders | src/pages/traders/TradersList.tsx:124-127 | The current page is `Page` of the filtered traders: the traders from `(currentPage - 1) * 10` in order. It holds 10 of them before the last page, the remainder on the last page and none past it. So `Paging.PagesCoverList` applies to it. |
| TradersList.TradersListPage.constructor | src/pages/traders/TradersList.tsx:86-91 | The page starts on page 1 with no filter. |
| TradersList.TradersListPage.FilterEffect | src/pages/traders/TradersList.tsx:98-121 | The filtered list becomes the filter of the original list, and the page returns to 1. |
| TradersList.TradersListPage.SetSearchTerm | src/pages/traders/TradersList.tsx:98-121 | A new search re-filters. |
| TradersList.TradersListPage.SetTier | src/pages/traders/TradersList.tsx:98-121 | A new tier re-filters. |
| TradersList.TradersListPage.SetRegion | src/pages/traders/TradersList.tsx:98-121 | A new region re-filters. |
| TradersList.TradersListPage.HandlePageChange | src/pages/traders/TradersList.tsx:124-127 | Moves to the page. |
| TradersList.TradersListPage.HandleDeleteTrader | src/pages/traders/TradersList.tsx:141-148 | After confirmation, removes the id from both lists. |
| TradersList.StatusColor | src/pages/traders/TradersList.tsx:150-159 | `success` exactly for Active and `error` exactly for Inactive, otherwise `default`. |
| TradersList.TierColor | src/pages/traders/TradersList.tsx:161-174 | Gold, Silver and Basic each have their own colour. Platinum and every other tier share `default`. |
| TradersList.TierOptionsList | src/pages/traders/TradersList.tsx:130 | The tier options are exactly Gold, Silver, Basic and Platinum, in order of first appearance. |
| TradersList.TierOptionsColours | src/pages/traders/TradersList.tsx:130-174 | The first three tier options, Gold, Silver and Basic, are shown in distinct colours. |
| TradersList.NoFiltersShowAll | src/pages/traders/TradersList.tsx:98-121 | No filters show every trader. |
| TradersList.TierAndRegion | src/pages/traders/TradersList.tsx:110-116 | With both drop-downs set, every shown trader has that tier and region. |
| FileDetail.Search | src/pages/files/FileDetail.tsx:155-168 | An empty search shows every product. Otherwise exactly those matching name, product id, category or description, each as many times as in the list, in order. |
| FileDetail.Preview | src/pages/files/FileDetail.tsx:347-348 | The preview is the first five products, or all of them when there are fewer. |
| FileDetail.ViewAllIffHidden | src/pages/files/FileDetail.tsx:392 | "View All" appears exactly when the preview hides some products. |
| FileDetail.FileDetailPage.constructor | src/pages/files/FileDetail.tsx:109-117 | The page starts with all products shown and no search. |
| FileDetail.FileDetailPage.SearchEffect | src/pages/files/FileDetail.tsx:155-168 | The shown list becomes the search over the current products. |
| FileDetail.FileDetailPage.SetSearchTerm | src/pages/files/FileDetail.tsx:155-168 | A new search re-filters the current products. |
| FileDetail.FileDetailPage.HandleProductDelete | src/pages/files/FileDetail.tsx:145-152 | After confirmation, removes the id from both lists. The shown list stays the search of the products. |
| FileDetail.DeletedStaysDeleted | src/pages/files/FileDetail.tsx:145-168 | A deleted product never reappears in any later search. |
| FileDetail.EmptySearchPreview | src/pages/files/FileDetail.tsx:347-348 | With no search, the preview is the first five products. |
| CustomerForm.OrElse | src/components/CustomerForm.tsx:136-150 | `x \|\| d` gives the value when it is a non-empty text, else the default. |
| CustomerForm.FetchedValues | src/components/CustomerForm.tsx:136-150 | Missing fields become empty, gender defaults to male and country to IN. Subscription is on exactly when the record says true. |
| CustomerForm.FetchedDocuments | src/components/CustomerForm.tsx:134 | The existing documents are the record's list, or none. |
| CustomerForm.EmptyRecordGivesInitialValues | src/components/CustomerForm.tsx:107-150 | An empty record gives the form's initial values. |
| CustomerForm.FetchRoundTrip | src/components/CustomerForm.tsx:107-150 | Loading a saved form gives it back exactly when its gender and country are non-empty. |
| CustomerForm.BoolText | src/components/CustomerForm.tsx:173 | The subscription is sent as `true` exactly when it is on. |
| CustomerForm.ImageEntries | src/components/CustomerForm.tsx:178-180 | At most one profile image is sent. |
| CustomerForm.DocumentEntries | src/components/CustomerForm.tsx:183-187 | One `documents` entry per chosen file, in order. |
| CustomerForm.BuildFormData | src/components/CustomerForm.tsx:161-187 | The loop-built body equals the submitted form. |
| CustomerForm.SubmittedTextField | src/components/CustomerForm.tsx:163-175 | Each text field reads back from the body as appended. |
| CustomerForm.SubmittedFormReadsBack | src/components/CustomerForm.tsx:163-175 | The body carries name, email, company, phone, gender, state, address, notes, the subscription text and the country lower-cased. |
| CustomerForm.TextEntries | src/components/CustomerForm.tsx:166-175 | The ten text appends, in order, with the country lower-cased and the subscription as text. |
| CustomerForm.SubmittedForm | src/components/CustomerForm.tsx:161-187 | The whole body: the text entries, the optional image, then the documents. |
| CustomerForm.InitialValuesFailSchema | src/components/CustomerForm.tsx:107-120 | The add form's starting values fail `customerSchema`, so Formik does not submit it until it is filled in. |
| CustomerForm.SentValuesPassSchema | src/components/CustomerForm.tsx:166-175 | Values that pass `customerSchema` still pass it as sent, with the country lower-cased. |
| CustomerForm.DocumentsAllSent | src/components/CustomerForm.tsx:183-187 | Every chosen document is sent, in order. |
| CustomerForm.TextEntriesAreNotFiles | src/components/CustomerForm.tsx:163-175 | No text field is named after a file field. |
| CustomerForm.ProfileImageSent | src/components/CustomerForm.tsx:178-180 | The profile image is read back exactly when the first chosen image is present. |
| CustomerForm.CreateEchoesForm | src/components/CustomerForm.tsx:189-195 | Creating through the mock returns the name, email, lower-cased country and subscription just submitted, as an active customer. |
| CustomerForm.IdOrOne | src/components/CustomerForm.tsx:191-193 | The route id when present, else `"1"`. |
| CustomerForm.SubmitRequest | src/components/CustomerForm.tsx:189-195 | Add mode creates; any other mode updates `parseInt(id \|\| "1")`. Both carry the body. |
| CustomerForm.EditTargetsRouteId | src/components/CustomerForm.tsx:189-195 | Editing a numeric route id updates that number. |
| CustomerForm.EditWithoutIdTargetsOne | src/components/CustomerForm.tsx:189-195 | Editing without a route id updates customer 1. |
| CustomerForm.WithoutIndex | src/components/CustomerForm.tsx:236-242 | Removes the element at an index in range, else changes nothing. |
| CustomerForm.CustomerFormPage.constructor | src/components/CustomerForm.tsx:72-123 | The form starts with the initial values and no documents or preview. |
| CustomerForm.CustomerFormPage.RequestedId | src/components/CustomerForm.tsx:133 | The number fetched is `parseInt` of the route id, or 1. |
| CustomerForm.CustomerFormPage.MountEffect | src/components/CustomerForm.tsx:125-159 | In edit mode with an id, a fetched record sets the values, the existing documents and (when it has one) the image preview, and a failure navigates back. Otherwise nothing changes. |
| CustomerForm.CustomerFormPage.ShowsLoading | src/components/CustomerForm.tsx:244-258 | The edit form shows `Loading...` while the values have neither a name nor an email. |
| CustomerForm.CustomerFormPage.HandleProfileImageChange | src/components/CustomerForm.tsx:207-222 | A chosen image becomes the form's image; no choice changes nothing. |
| CustomerForm.CustomerFormPage.HandleDocumentsChange | src/components/CustomerForm.tsx:225-234 | The choice is appended to the on-screen list, and the form's documents become the latest choice. |
| CustomerForm.CustomerFormPage.HandleRemoveDocument | src/components/CustomerForm.tsx:236-238 | Removes one on-screen document by index. |
| CustomerForm.CustomerFormPage.HandleRemoveExistingDocument | src/components/CustomerForm.tsx:240-242 | Removes one existing document by index. |
| CustomerForm.CustomerFormPage.HandleSubmit | src/components/CustomerForm.tsx:161-205 | Submits the form's body as a create or as an update of the requested number. |
| CustomerForm.LoadingAfterFetch | src/components/CustomerForm.tsx:244 | A fetched record with no name and no email keeps the edit form on its loading screen. |
| CustomerForm.SubmittedDocumentsAreLatestChoice | src/components/CustomerForm.tsx:183-234 | The body carries the latest file choice, whatever the on-screen list holds. |
| CustomerView.CountryName | src/pages/CustomerView.tsx:63-69 | A full country name is kept, and a known code gives its name. Anything else is shown as given. |
| CustomerView.CountryNameIdempotent | src/pages/CustomerView.tsx:63-69 | Naming a country twice is the same as once. |
| CustomerView.LowerCasedCodeIsShownAsIs | src/pages/CustomerView.tsx:51-69 | The lower-case code the form saves (`in`) is not translated, while `IN` is. |
| CustomerView.ToggleTwice | src/pages/CustomerView.tsx:156-161 | Toggling an active or inactive status twice returns it. |
| CustomerView.CustomerViewPage.constructor | src/pages/CustomerView.tsx:47-48 | The page starts loading with no customer. |
| CustomerView.CustomerViewPage.RequestedId | src/pages/CustomerView.tsx:77 | The number fetched is `parseInt` of the route id, or 1. |
| CustomerView.CustomerViewPage.FetchCustomer | src/pages/CustomerView.tsx:75-86 | A fetched record is shown. A failure navigates to the list. Loading ends either way. |
| CustomerView.CustomerViewPage.ShowsLoading | src/pages/CustomerView.tsx:118-119 | The page shows `Loading...` while loading or while no customer is there. |
| CustomerView.CustomerViewPage.HandleDelete | src/pages/CustomerView.tsx:88-99 | A confirmed delete asks for the requested number. It navigates to the list exactly when it succeeded. |
| CustomerView.CustomerViewPage.ButtonTarget | src/pages/CustomerView.tsx:156-161 | The button offers `inactive` exactly for an active customer. |
| CustomerView.CustomerViewPage.HandleStatusChange | src/pages/CustomerView.tsx:101-116 | A confirmed change asks for the number and status. On success, only the shown status changes. |
| TraderDetail.UploadedFile | src/pages/traders/TraderDetail.tsx:186-196 | The uploaded file is `f` + (count + 1), active, protected, with no items or views. |
| TraderDetail.TicksFormula | src/pages/traders/TraderDetail.tsx:181-202 | From progress p the upload completes after (100 - p)/10 + 1 ticks. |
| TraderDetail.TicksToComplete | src/pages/traders/TraderDetail.tsx:180-202 | The interval ticks from progress p until the tick that sees 100. |
| TraderDetail.UploadTakesElevenTicks | src/pages/traders/TraderDetail.tsx:181-202 | A fresh upload takes 11 ticks. |
| TraderDetail.TraderDetailPage.constructor | src/pages/traders/TraderDetail.tsx:101-111 | The page shows the trader's files, with the dialog closed and nothing uploading. |
| TraderDetail.TraderDetailPage.HandleFileDelete | src/pages/traders/TraderDetail.tsx:145-151 | A confirmed delete removes the id; nothing else changes. |
| TraderDetail.TraderDetailPage.HandleUploadDialogOpen | src/pages/traders/TraderDetail.tsx:153-155 | Opens the dialog. |
| TraderDetail.TraderDetailPage.HandleUploadDialogClose | src/pages/traders/TraderDetail.tsx:157-162 | Closes and resets the dialog but leaves a running timer running. |
| TraderDetail.TraderDetailPage.HandleFileChange | src/pages/traders/TraderDetail.tsx:164-168 | The first chosen file is selected; no choice changes nothing. |
| TraderDetail.TraderDetailPage.UploadDisabled | src/pages/traders/TraderDetail.tsx:530 | The Upload button is disabled while no file is chosen or an upload runs. |
| TraderDetail.TraderDetailPage.HandleUploadFile | src/pages/traders/TraderDetail.tsx:170-205 | Without a file it reports the error and changes nothing. Otherwise it starts the timer at 0 with the current count and name. |
| TraderDetail.TraderDetailPage.Tick | src/pages/traders/TraderDetail.tsx:181-202 | Below 100 it adds 10. At 100 it stops, closes the dialog and puts the new file first. |
| TraderDetail.UploadAfterDeleteRepeatsId | src/pages/traders/TraderDetail.tsx:186-187 | After deleting `f1`, an upload is named `f3`, which another file still holds. |
| Paging.TotalPages | src/pages/products/ProductsManagement.tsx:178 | The page count is the least number of 10-row pages holding the list. |
| Paging.Page | src/pages/products/ProductsManagement.tsx:175-177 | Page p holds the list's elements from (p - 1) * 10 in order. It is full before the last page, holds the remainder on the last page and is empty after it. |
| Paging.FirstPagesArePrefix | src/pages/products/ProductsManagement.tsx:175-178 | Pages 1..k, one after the other, are the list's first 10 k elements (the whole list once k pages cover it). |
| Paging.PagesCoverList | src/pages/products/ProductsManagement.tsx:175-178 | The pages together give back the whole list. |
| Paging.Rows | src/pages/CustomerList.tsx:196-199 | The table's page holds the rows from `page * rows` in order: `rows` of them while the list lasts, the remainder on the last page and none past it. |
| Paging.FirstRowsArePrefix | src/pages/CustomerList.tsx:196-199 | The table's pages 0..k-1, one after the other, are the list's first k * rows rows (the whole list once k pages cover it). |
| Paging.RowsCoverList | src/pages/CustomerList.tsx:196-199 | With at least one row per page, the table's ceil(n / rows) pages give back the whole list, so no row is lost or repeated. |
| Seqs.Distinct | src/pages/products/ProductsManagement.tsx:181-182 | Each value is kept once, and nothing else is added. |
| Seqs.DistinctFirstOccurrenceOrder | src/pages/products/ProductsManagement.tsx:181-182 | The kept values are ordered by their first occurrence in the input. |
| Seqs.FindIndex | src/services/localStorageService.ts:116 | `findIndex`: the first index whose element passes, or -1 exactly when none does. |
| Seqs.Find | src/services/localStorageService.ts:94 | `find`: nothing exactly when no element passes, otherwise the first element that does. |
| Seqs.FindOrFirst | src/services/mockApi.ts:189-190 | `find(p) || s[0]` over truthy records: the first element passing `p`, or the first element when none does. |
| Seqs.IndexOfKey | src/services/mockAPIService.ts:287 | `findIndex(t => t.id === id)`: the first index carrying the identifier, or -1 exactly when none does. |
| Seqs.RemoveAt | src/services/mockAPIService.ts:309 | `splice(index, 1)`: one shorter, the elements before the index unchanged and those after it shifted down by one. |
| Seqs.Slice | src/pages/CustomerList.tsx:353 | `slice` with JavaScript's index clamping: the elements between the clamped bounds, or nothing when they cross. |
| Seqs.Filter | src/pages/CustomerList.tsx:71-80 | `filter` keeps exactly the elements that pass, each as many times as it occurs, in their order; it returns the list itself when every element passes. |
| Seqs.RemoveKey | src/pages/products/ProductsManagement.tsx:195-196 | Keeps exactly the elements whose key differs, each as many times as it occurs, in order. It is the identity when no element has the key. |
| Seqs.RemoveKeyCommutes | src/pages/files/FileDetail.tsx:145-168 | Deleting and then filtering gives the same list as filtering and then deleting. |
| Seqs.RemoveKeyHead | src/services/localStorageService.ts:133-146 | When only the first element carries the key, removing it leaves exactly the rest of the list. |
| Text.Lower | src/pages/products/ProductsManagement.tsx:152-159 | Lower-cases each ASCII capital letter and keeps every other character. |
| Text.Includes | src/pages/products/ProductsManagement.tsx:152-159 | True exactly when the text occurs at some position. |
| Text.ParseIntOfIntText | src/pages/CustomerList.tsx:353 | `parseInt` reads back the decimal rendering of any integer. |
| Text.TrimStart | src/pages/CustomerList.tsx:353 | The white space `parseInt` skips: the result is a suffix with no leading white space, and only white space was dropped. |
| Text.ParseInt | src/pages/CustomerList.tsx:353 | `parseInt` in base 10: leading white space, an optional sign, the leading digits, `NaN` when there are none. |
| Text.ParseIntNoDigits | src/pages/CustomerList.tsx:353 | A text without digits parses to `NaN`. |
| FormDataModel.Get | src/components/CustomerForm.tsx:161-187 | `FormData.get` gives the first entry under the name, and nothing exactly when there is none. |
| FormDataModel.GetAll | src/components/CustomerForm.tsx:183-187 | `FormData.getAll` starts with the first entry and is empty exactly when there is none. |
| FormDataModel.GetConcat | src/components/CustomerForm.tsx:161-187 | Appending entries never hides an earlier entry with the same name. |
| FormDataModel.GetAfterAppend | src/components/CustomerForm.tsx:166-187 | One more `append` never changes what `get` already answers; a name without an entry then answers with the appended value. |
| FormDataModel.GetAllAfterAppend | src/components/CustomerForm.tsx:183-187 | One more `append` adds its value at the end of `getAll` for its own name and leaves every other name's answer unchanged. |
| FormDataModel.GetAllConcat | src/components/CustomerForm.tsx:161-187 | `getAll` over two batches of appends is the first batch's answer followed by the second's. |
| FormDataModel.GetAtFirst | src/components/CustomerForm.tsx:166-179 | The earliest entry under a name is the one `get` returns. |

## Left out

- Delays: the mock services' `setTimeout` delays and the upload's 200 ms interval are left out. Only the state change of each call and of each timer tick is modelled. Concurrent uploads, which each start their own interval, are not modelled.
- Parameters: `Math.random`, the clock and `Date`/`toISOString` are parameters (`roll`, `now`, `today`, `nowMillis`). So are `window.confirm` (a boolean) and the outcome of network calls. Toasts are not modelled, and navigations are returned values.
- The real HTTP client in `apiClient.ts` and `apiService.ts` is not part of this model. The customer pages take the value the client resolves to as the customer record. With the real axios client that value is the response wrapper, not its data.
- Number formatting: floating point (prices, `toFixed`) and the exponent form of large numbers in `String(n)` are not modelled. `parseInt` is modelled for decimal text only; its `0x` prefix is left out.
- Text: lower-casing is ASCII only, with no Unicode case mapping. The yup `.email()` rule is a predicate parameter.
- Text lengths: a Dafny string is a sequence of Unicode code points, while JavaScript's `length`, `slice` and yup's `min`/`max` count UTF-16 code units. The two agree for text without characters outside the Basic Multilingual Plane, such as emoji. The members below inherit this.
- Register.Validate: the 6-character password minimum counts code points, not UTF-16 units.
- Register.AcceptableIff: the 6-character password minimum counts code points, not UTF-16 units.
- MockApi.MockRegister: the 6-character password minimum counts code points, not UTF-16 units.
- Validators.LoginValid: the 6-character password minimum counts code points, not UTF-16 units.
- Validators.StrongPassword: the 8-character minimum counts code points, not UTF-16 units.
- Validators.ResetPasswordValid: the 8-character minimum counts code points, not UTF-16 units.
- Validators.StrongPasswordWitnesses: the 8-character minimum counts code points, not UTF-16 units.
- Validators.ResetPasswordMeetsLogin: both minimums count code points, not UTF-16 units.
- Validators.CustomerValid: the name, address and notes limits count code points, not UTF-16 units.
- CustomerList.ButtonNumber: `slice(-6)` takes the last six code points, not the last six UTF-16 units.
- Records: fields absent from an untyped create request are modelled as empty text or 0 rather than `undefined`. A patch field is either present or absent; a field explicitly set to `undefined` is not modelled.
- Routes: React Router ranks routes by specificity. The model takes the first declared route among those matching, which agrees for every path the table declares. React Router also compares path segments without regard to case by default; the model compares them exactly. `ProtectedRoute`'s role check is modelled though no route passes a required role.
- Mock services: `mockAuthAPI.forgotPassword`, `resetPassword` and `getProfile`, and `mockForgotPassword`/`mockResetPassword`, are not modelled beyond the provider's success flag. They only wait and answer a constant.
- Browser-only work: `FileReader` image previews and Formik's internal state are not modelled. The form's `enableReinitialize` is modelled as the values taking the fetched initial values.
- The view-only pages (`Dashboard`, `ProductDetail`, `FileEdit`, `FileUpload`, `TraderCreate`, `TraderEdit`, `ProductCreate`, the layout and the table components) only render or navigate, and are not part of this model.
- `CustomerView.CountryName` looks codes up in a finite map. Prototype keys of a JavaScript object literal, such as `toString`, are not modelled.
- CustomerView.CustomerViewPage.HandleStatusChange: requires a loaded customer, because its button renders only then.
- MockApiService.MockBackend.ExtractProducts: the random draw is a parameter below 100, standing for `Math.floor(Math.random() * 100)`.
- `TraderDetail`'s status, security and tier colour helpers are the same mappings as `TradersList.StatusColor`, `FilesPage.SecurityColor` and `TradersList.TierColor`, and are modelled once.
- The trader page's Cancel leaves the upload timer running, and the mock administrator's role is the text `'admin'`, not a number. The model follows the code in both.
