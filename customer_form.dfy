/**
 * The customer add/edit form: the values it starts from, the defaults it applies to a fetched
 * customer, the `FormData` it submits, the document lists it edits and the loading guard.
 */
module CustomerForm {
  import opened Common
  import opened Seqs
  import opened Text
  import opened FormDataModel
  import opened MockApi
  import Validators

  /**
   * The form's values. A file input holds the names of the files chosen with it; `None` is
   * `null`, the state before any choice.
   */
  datatype FormValues = FormValues(
    name: string, email: string, companyName: string, phoneNo: string,
    profileImage: Option<seq<string>>, gender: string, country: string, state: string,
    isSubscribed: bool, address: string, notes: string, documents: Option<seq<string>>)

  const InitialValues := FormValues("", "", "", "", None, "male", "IN", "", false, "", "", None)

  /** A customer as the API returns it: `None` marks a missing field. */
  datatype FetchedCustomer = FetchedCustomer(
    name: Option<string>, email: Option<string>, companyName: Option<string>,
    phoneNo: Option<string>, gender: Option<string>, country: Option<string>,
    state: Option<string>, isSubscribed: Option<bool>, address: Option<string>,
    notes: Option<string>, profileImage: Option<string>, documents: Option<seq<string>>)

  /** A string field is truthy when present and non-empty. */
  predicate Truthy(o: Option<string>) {
    o.Some? && o.value != ""
  }

  /** `value || fallback` for a string field. */
  function OrElse(o: Option<string>, fallback: string): (r: string)
    ensures Truthy(o) ==> r == o.value
    ensures !Truthy(o) ==> r == fallback
  {
    if Truthy(o) then o.value else fallback
  }

  /** The values `fetchCustomer` puts in the form: falsy fields fall back to the initial values. */
  function FetchedValues(data: FetchedCustomer): (r: FormValues)
    ensures r.profileImage.None? && r.documents.None?
    ensures r.gender != "" && r.country != ""
    ensures Truthy(data.gender) ==> r.gender == data.gender.value
    ensures !Truthy(data.gender) ==> r.gender == "male"
    ensures Truthy(data.country) ==> r.country == data.country.value
    ensures !Truthy(data.country) ==> r.country == "IN"
    ensures r.isSubscribed <==> data.isSubscribed == Some(true)
    ensures r.name == OrElse(data.name, "") && r.email == OrElse(data.email, "")
  {
    FormValues(OrElse(data.name, ""), OrElse(data.email, ""), OrElse(data.companyName, ""),
               OrElse(data.phoneNo, ""), None, OrElse(data.gender, "male"), OrElse(data.country, "IN"),
               OrElse(data.state, ""), data.isSubscribed == Some(true), OrElse(data.address, ""),
               OrElse(data.notes, ""), None)
  }

  /** `data.documents || []`: an empty array is truthy, so only a missing list falls back. */
  function FetchedDocuments(data: FetchedCustomer): (r: seq<string>)
    ensures data.documents.Some? ==> r == data.documents.value
    ensures data.documents.None? ==> r == []
  {
    data.documents.GetOr([])
  }

  /** A record with no fields at all fills the form exactly as a new form starts. */
  lemma EmptyRecordGivesInitialValues()
    ensures FetchedValues(FetchedCustomer(None, None, None, None, None, None, None, None, None, None, None, None))
            == InitialValues
  {
  }

  /** Every field of the form as a fetched record. */
  function AsFetched(v: FormValues): FetchedCustomer {
    FetchedCustomer(Some(v.name), Some(v.email), Some(v.companyName), Some(v.phoneNo), Some(v.gender),
                    Some(v.country), Some(v.state), Some(v.isSubscribed), Some(v.address), Some(v.notes),
                    None, None)
  }

  /**
   * Fetching a record that carries a form's own values fills the form with exactly those
   * values, as long as gender and country are set (an empty one falls back to its default).
   */
  lemma FetchRoundTrip(v: FormValues)
    requires v.profileImage.None? && v.documents.None?
    ensures FetchedValues(AsFetched(v)) == v <==> v.gender != "" && v.country != ""
  {
  }

  /** `isSubscribed.toString()`. */
  function BoolText(b: bool): (r: string)
    ensures r == "true" <==> b
  {
    if b then "true" else "false"
  }

  /** The ten text entries, in the order `handleSubmit` appends them. */
  function TextEntries(v: FormValues): FormData {
    [ Entry("name", Text(v.name)), Entry("email", Text(v.email)),
      Entry("companyName", Text(v.companyName)), Entry("phoneNo", Text(v.phoneNo)),
      Entry("gender", Text(v.gender)), Entry("country", Text(Lower(v.country))),
      Entry("state", Text(v.state)), Entry("isSubscribed", Text(BoolText(v.isSubscribed))),
      Entry("address", Text(v.address)), Entry("notes", Text(v.notes)) ]
  }

  /** The profile image entry: only the first chosen file, and only if one was chosen. */
  function ImageEntries(v: FormValues): (r: FormData)
    ensures |r| <= 1
  {
    if v.profileImage.Some? && |v.profileImage.value| > 0 then
      [Entry("profileImage", Upload(v.profileImage.value[0]))]
    else []
  }

  /** A chosen file as the value `append` sends. */
  function UploadOf(fileName: string): FormValue {
    Upload(fileName)
  }

  /** One `documents` entry per chosen file, in order. */
  function DocumentEntries(docs: seq<string>): (r: FormData)
    ensures |r| == |docs|
    ensures forall i :: 0 <= i < |docs| ==> r[i] == Entry("documents", Upload(docs[i]))
  {
    seq(|docs|, i requires 0 <= i < |docs| => Entry("documents", Upload(docs[i])))
  }

  /** The whole `FormData` a submit sends. */
  function SubmittedForm(v: FormValues): FormData {
    TextEntries(v) + ImageEntries(v) + (if v.documents.Some? then DocumentEntries(v.documents.value) else [])
  }

  /** `handleSubmit`'s assembly: ten appends, the optional image, then a loop over the documents. */
  method BuildFormData(v: FormValues) returns (fd: FormData)
    ensures fd == SubmittedForm(v)
  {
    fd := [];
    fd := fd + [Entry("name", Text(v.name))];
    fd := fd + [Entry("email", Text(v.email))];
    fd := fd + [Entry("companyName", Text(v.companyName))];
    fd := fd + [Entry("phoneNo", Text(v.phoneNo))];
    fd := fd + [Entry("gender", Text(v.gender))];
    fd := fd + [Entry("country", Text(Lower(v.country)))];
    fd := fd + [Entry("state", Text(v.state))];
    fd := fd + [Entry("isSubscribed", Text(BoolText(v.isSubscribed)))];
    fd := fd + [Entry("address", Text(v.address))];
    fd := fd + [Entry("notes", Text(v.notes))];
    assert fd == TextEntries(v);
    if v.profileImage.Some? && |v.profileImage.value| > 0 {
      fd := fd + [Entry("profileImage", Upload(v.profileImage.value[0]))];
    }
    ghost var head := fd;
    assert head == TextEntries(v) + ImageEntries(v);
    if v.documents.Some? {
      var docs := v.documents.value;
      var i := 0;
      while i < |docs|
        invariant 0 <= i <= |docs|
        invariant fd == head + DocumentEntries(docs[..i])
      {
        assert DocumentEntries(docs[..i + 1]) == DocumentEntries(docs[..i]) + [Entry("documents", Upload(docs[i]))];
        fd := fd + [Entry("documents", Upload(docs[i]))];
        i := i + 1;
      }
      assert docs[..|docs|] == docs;
    } else {
      assert fd == head + [];
    }
  }

  /** The text entries come first, so `get` of a text field reads it from them. */
  lemma SubmittedTextField(v: FormValues, k: int)
    requires 0 <= k < 10
    ensures Get(SubmittedForm(v), TextEntries(v)[k].name) == Some(TextEntries(v)[k].value)
  {
    var t := TextEntries(v);
    var rest := ImageEntries(v) + (if v.documents.Some? then DocumentEntries(v.documents.value) else []);
    assert SubmittedForm(v) == t + rest;
    assert forall i, j :: 0 <= i < j < 10 ==> t[i].name != t[j].name;
    GetAtFirst(t, k, t[k].name);
    GetConcat(t, rest, t[k].name);
  }

  /** What the submitted form answers to `get`, field by field. */
  lemma SubmittedFormReadsBack(v: FormValues)
    ensures Get(SubmittedForm(v), "name") == Some(Text(v.name))
    ensures Get(SubmittedForm(v), "email") == Some(Text(v.email))
    ensures Get(SubmittedForm(v), "companyName") == Some(Text(v.companyName))
    ensures Get(SubmittedForm(v), "phoneNo") == Some(Text(v.phoneNo))
    ensures Get(SubmittedForm(v), "gender") == Some(Text(v.gender))
    ensures Get(SubmittedForm(v), "country") == Some(Text(Lower(v.country)))
    ensures Get(SubmittedForm(v), "isSubscribed") == Some(Text(BoolText(v.isSubscribed)))
    ensures Get(SubmittedForm(v), "address") == Some(Text(v.address))
    ensures Get(SubmittedForm(v), "state") == Some(Text(v.state))
    ensures Get(SubmittedForm(v), "notes") == Some(Text(v.notes))
  {
    SubmittedTextField(v, 0);
    SubmittedTextField(v, 1);
    SubmittedTextField(v, 2);
    SubmittedTextField(v, 3);
    SubmittedTextField(v, 4);
    SubmittedTextField(v, 5);
    SubmittedTextField(v, 6);
    SubmittedTextField(v, 7);
    SubmittedTextField(v, 8);
    SubmittedTextField(v, 9);
  }

  /** The fields `customerSchema` checks, as the form holds them. */
  function SchemaValues(v: FormValues): Validators.CustomerValues {
    Validators.CustomerValues(v.name, v.email, v.companyName, v.phoneNo, v.gender, v.country, v.state,
                              v.address, v.notes)
  }

  /** The same fields as `handleSubmit` sends them: the country lower-cased. */
  function SentValues(v: FormValues): Validators.CustomerValues {
    SchemaValues(v).(country := Lower(v.country))
  }

  /** Formik runs `customerSchema` before `onSubmit`: a new form cannot be submitted as it starts. */
  lemma InitialValuesFailSchema(isEmail: string -> bool)
    ensures !Validators.CustomerValid(SchemaValues(InitialValues), isEmail)
  {
  }

  /** Values that pass the schema still pass it as sent: lower-casing keeps the country non-empty. */
  lemma SentValuesPassSchema(v: FormValues, isEmail: string -> bool)
    requires Validators.CustomerValid(SchemaValues(v), isEmail)
    ensures Validators.CustomerValid(SentValues(v), isEmail)
  {
    assert |SentValues(v).country| == |v.country|;
  }

  /** Every chosen document is sent, in order, under `documents`; nothing else is. */
  lemma {:induction false} DocumentsAllSent(docs: seq<string>)
    ensures GetAll(DocumentEntries(docs), "documents") == Map(docs, UploadOf)
    decreases |docs|
  {
    if docs != [] {
      DocumentsAllSent(docs[1..]);
      assert DocumentEntries(docs)[1..] == DocumentEntries(docs[1..]);
      assert Map(docs, UploadOf) == [UploadOf(docs[0])] + Map(docs[1..], UploadOf);
    }
  }

  /** No text entry is named like a file field. */
  lemma TextEntriesAreNotFiles(v: FormValues)
    ensures Get(TextEntries(v), "profileImage").None?
    ensures GetAll(TextEntries(v), "documents") == []
  {
    var t := TextEntries(v);
    assert |t| == 10;
    assert forall i :: 0 <= i < 10 ==> t[i].name != "profileImage" && t[i].name != "documents";
  }

  /** The image entry is sent only when a file was chosen, and then it is the first one. */
  lemma ProfileImageSent(v: FormValues)
    ensures Get(SubmittedForm(v), "profileImage")
            == if v.profileImage.Some? && |v.profileImage.value| > 0 then Some(Upload(v.profileImage.value[0])) else None
  {
    var docs := if v.documents.Some? then DocumentEntries(v.documents.value) else [];
    TextEntriesAreNotFiles(v);
    GetConcat(TextEntries(v), ImageEntries(v), "profileImage");
    GetConcat(TextEntries(v) + ImageEntries(v), docs, "profileImage");
    assert forall i :: 0 <= i < |docs| ==> docs[i].name == "documents";
  }

  /**
   * The mock create answers with the submitted values: the name as typed, the country
   * lower-cased and the subscription flag read back from its text.
   */
  lemma CreateEchoesForm(v: FormValues, nowMillis: int, now: string)
    ensures var saved := MockCreateCustomer(SubmittedForm(v), nowMillis, now).data;
      saved.name == Some(Text(v.name)) && saved.email == Some(Text(v.email))
      && saved.country == Some(Text(Lower(v.country)))
      && (saved.isSubscribed <==> v.isSubscribed) && saved.status == "active"
  {
    SubmittedFormReadsBack(v);
  }

  /** `id || "1"`: a missing or empty route id stands for customer 1. */
  function IdOrOne(idParam: Option<string>): (r: string)
    ensures r != ""
    ensures Truthy(idParam) ==> r == idParam.value
  {
    OrElse(idParam, "1")
  }

  datatype SubmitCall = CreateCall(form: FormData) | UpdateCall(id: Num, form: FormData)

  /** Which API call a submit makes: 'add' creates, every other mode updates. */
  function SubmitRequest(mode: string, idParam: Option<string>, fd: FormData): (r: SubmitCall)
    ensures r.form == fd
    ensures r.CreateCall? <==> mode == "add"
    ensures r.UpdateCall? ==> r.id == ParseInt(IdOrOne(idParam))
  {
    if mode == "add" then CreateCall(fd) else UpdateCall(ParseInt(IdOrOne(idParam)), fd)
  }

  /** Editing customer `n` updates customer `n`. */
  lemma EditTargetsRouteId(mode: string, n: int, fd: FormData)
    requires mode != "add"
    ensures SubmitRequest(mode, Some(IntText(n)), fd) == UpdateCall(Int(n), fd)
  {
    ParseIntOfIntText(n);
  }

  /** With no id in the route, an edit updates customer 1. */
  lemma EditWithoutIdTargetsOne(mode: string, fd: FormData)
    requires mode != "add"
    ensures SubmitRequest(mode, None, fd) == UpdateCall(Int(1), fd)
  {
    ParseIntOfIntText(1);
    assert IntText(1) == "1";
  }

  /** `prev.filter((_, i) => i !== index)`. */
  function WithoutIndex<T>(s: seq<T>, index: int): (r: seq<T>)
    ensures 0 <= index < |s| ==> r == RemoveAt(s, index)
    ensures !(0 <= index < |s|) ==> r == s
    decreases |s|
  {
    if s == [] then []
    else if index == 0 then s[1..]
    else
      var rest := WithoutIndex(s[1..], index - 1);
      [s[0]] + rest
  }

  class CustomerFormPage {
    const mode: string
    const idParam: Option<string>
    var initialFormValues: FormValues
    /** The values Formik holds; re-initialised whenever `initialFormValues` changes. */
    var values: FormValues
    var selectedDocuments: seq<string>
    var existingDocuments: seq<string>
    var imagePreview: Option<string>

    constructor(mode: string, idParam: Option<string>)
      ensures this.mode == mode && this.idParam == idParam
      ensures initialFormValues == InitialValues && values == InitialValues
      ensures selectedDocuments == [] && existingDocuments == [] && imagePreview.None?
    {
      this.mode := mode;
      this.idParam := idParam;
      initialFormValues := InitialValues;
      values := InitialValues;
      selectedDocuments := [];
      existingDocuments := [];
      imagePreview := None;
    }

    /** The edit form shows a spinner until a name or an email is known. */
    predicate ShowsLoading()
      reads this
    {
      mode == "edit" && initialFormValues.name == "" && initialFormValues.email == ""
    }

    /** The id every fetch and update uses. */
    function RequestedId(): (r: Num)
      reads this
      ensures Truthy(idParam) ==> r == ParseInt(idParam.value)
      ensures !Truthy(idParam) ==> r == Int(1)
    {
      assert ParseInt("1") == Int(1) by {
        ParseIntOfIntText(1);
        assert IntText(1) == "1";
      }
      ParseInt(IdOrOne(idParam))
    }

    /**
     * The mount effect. In edit mode with an id it fetches the customer: `Some(data)` is the
     * answer, `None` a failed request, which sends the user back to the list.
     */
    method MountEffect(outcome: Option<FetchedCustomer>) returns (navigateTo: Option<string>)
      modifies this
      ensures selectedDocuments == old(selectedDocuments)
      ensures !(mode == "edit" && Truthy(idParam)) || outcome.None? ==>
                navigateTo == (if mode == "edit" && Truthy(idParam) then Some("/customers") else None)
                && initialFormValues == old(initialFormValues) && values == old(values)
                && existingDocuments == old(existingDocuments) && imagePreview == old(imagePreview)
      ensures mode == "edit" && Truthy(idParam) && outcome.Some? ==>
                navigateTo.None? && initialFormValues == FetchedValues(outcome.value)
                && values == initialFormValues && existingDocuments == FetchedDocuments(outcome.value)
                && imagePreview == (if Truthy(outcome.value.profileImage) then outcome.value.profileImage
                                    else old(imagePreview))
    {
      navigateTo := None;
      if mode == "edit" && Truthy(idParam) {
        if outcome.Some? {
          var data := outcome.value;
          existingDocuments := FetchedDocuments(data);
          initialFormValues := FetchedValues(data);
          values := initialFormValues;
          if Truthy(data.profileImage) {
            imagePreview := data.profileImage;
          }
        } else {
          navigateTo := Some("/customers");
        }
      }
    }

    /** `handleProfileImageChange`: a non-empty choice becomes the image field. */
    method HandleProfileImageChange(files: seq<string>)
      modifies this
      ensures |files| > 0 ==> values == old(values).(profileImage := Some(files))
      ensures |files| == 0 ==> values == old(values)
      ensures initialFormValues == old(initialFormValues) && selectedDocuments == old(selectedDocuments)
      ensures existingDocuments == old(existingDocuments) && imagePreview == old(imagePreview)
    {
      if |files| > 0 {
        values := values.(profileImage := Some(files));
      }
    }

    /**
     * `handleDocumentsChange`: the chosen files are listed after the ones already listed,
     * while the form's `documents` field holds only the latest choice.
     */
    method HandleDocumentsChange(files: Option<seq<string>>)
      modifies this
      ensures files.Some? ==> selectedDocuments == old(selectedDocuments) + files.value
                              && values == old(values).(documents := files)
      ensures files.None? ==> selectedDocuments == old(selectedDocuments) && values == old(values)
      ensures initialFormValues == old(initialFormValues) && existingDocuments == old(existingDocuments)
      ensures imagePreview == old(imagePreview)
    {
      if files.Some? {
        selectedDocuments := selectedDocuments + files.value;
        values := values.(documents := files);
      }
    }

    /** `handleRemoveDocument`: drops the listed file at that position, if there is one. */
    method HandleRemoveDocument(index: int)
      modifies this
      ensures selectedDocuments == WithoutIndex(old(selectedDocuments), index)
      ensures values == old(values) && initialFormValues == old(initialFormValues)
      ensures existingDocuments == old(existingDocuments) && imagePreview == old(imagePreview)
    {
      selectedDocuments := WithoutIndex(selectedDocuments, index);
    }

    /** `handleRemoveExistingDocument`: drops the stored document at that position, if there is one. */
    method HandleRemoveExistingDocument(index: int)
      modifies this
      ensures existingDocuments == WithoutIndex(old(existingDocuments), index)
      ensures values == old(values) && initialFormValues == old(initialFormValues)
      ensures selectedDocuments == old(selectedDocuments) && imagePreview == old(imagePreview)
    {
      existingDocuments := WithoutIndex(existingDocuments, index);
    }

    /** `handleSubmit`: builds the form from the current values and picks the API call. */
    method HandleSubmit() returns (call: SubmitCall)
      ensures call == SubmitRequest(mode, idParam, SubmittedForm(values))
      ensures call.UpdateCall? ==> call.id == RequestedId()
    {
      var fd := BuildFormData(values);
      if mode == "add" {
        call := CreateCall(fd);
      } else {
        call := UpdateCall(ParseInt(IdOrOne(idParam)), fd);
      }
    }
  }

  /** After a fetch, the loading view stays up exactly when the record has neither a name nor an email. */
  lemma LoadingAfterFetch(data: FetchedCustomer)
    ensures (FetchedValues(data).name == "" && FetchedValues(data).email == "")
            <==> !Truthy(data.name) && !Truthy(data.email)
  {
  }

  /**
   * The submitted documents are those of the latest choice, in order. The list on screen
   * (`selectedDocuments`) plays no part: files chosen earlier are not sent, and a file
   * removed from the list still is.
   */
  lemma SubmittedDocumentsAreLatestChoice(v: FormValues, latest: seq<string>)
    ensures var after := v.(documents := Some(latest));
      GetAll(SubmittedForm(after), "documents") == Map(latest, UploadOf)
  {
    var after := v.(documents := Some(latest));
    GetAllConcat(TextEntries(after) + ImageEntries(after), DocumentEntries(latest), "documents");
    GetAllConcat(TextEntries(after), ImageEntries(after), "documents");
    TextEntriesAreNotFiles(after);
    DocumentsAllSent(latest);
  }
}
