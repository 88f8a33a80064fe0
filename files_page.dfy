/**
 * The files management page. Its filter effect starts again from the five seed files,
 * narrows them (owner, search, status, security) and goes back to page 1.
 */
module FilesPage {
  import opened Common
  import opened Seqs
  import opened Text
  import opened Paging
  import opened Entities

  /** `user?.role === 'trader'`. */
  predicate IsTraderUser(user: Option<User>) {
    user.Some? && user.value.role == RoleText("trader")
  }

  /** The search rule: only the file name and the uploader are searched, ignoring case. */
  predicate FileMatches(f: FileRecord, term: string) {
    IncludesIgnoringCase(f.fileName, term) || IncludesIgnoringCase(f.uploadedBy, term)
  }

  function ByUploader(fs: seq<FileRecord>, name: string): seq<FileRecord> { Filter(fs, (f: FileRecord) => f.uploadedBy == name) }
  function BySearch(fs: seq<FileRecord>, term: string): seq<FileRecord> { Filter(fs, (f: FileRecord) => FileMatches(f, term)) }
  function ByStatus(fs: seq<FileRecord>, s: string): seq<FileRecord> { Filter(fs, (f: FileRecord) => f.status == s) }
  function BySecurity(fs: seq<FileRecord>, s: string): seq<FileRecord> { Filter(fs, (f: FileRecord) => f.security == s) }

  /** Everything a file must satisfy to be shown. */
  predicate Passes(f: FileRecord, user: Option<User>, term: string, status: string, security: string) {
    (IsTraderUser(user) ==> f.uploadedBy == user.value.name)
    && (term != "" ==> FileMatches(f, term))
    && (status != "all" ==> f.status == status)
    && (security != "all" ==> f.security == security)
  }

  /** The filter effect's steps applied to a list of files, in the page's order. */
  function Narrow(fs: seq<FileRecord>, user: Option<User>, term: string, status: string, security: string): (r: seq<FileRecord>)
    ensures forall f :: f in r <==> f in fs && Passes(f, user, term, status, security)
    ensures IsSubsequence(r, fs)
    ensures forall f {:trigger multiset(r)[f]} :: multiset(r)[f] == if Passes(f, user, term, status, security) then multiset(fs)[f] else 0
  {
    var r1 := if IsTraderUser(user) then ByUploader(fs, user.value.name) else fs;
    var r2 := if term != "" then BySearch(r1, term) else r1;
    var r3 := if status != "all" then ByStatus(r2, status) else r2;
    var r4 := if security != "all" then BySecurity(r3, security) else r3;
    SubsequenceReflexive(fs);
    SubsequenceReflexive(r1);
    SubsequenceReflexive(r2);
    SubsequenceReflexive(r3);
    SubsequenceTransitive(r2, r1, fs);
    SubsequenceTransitive(r3, r2, fs);
    SubsequenceTransitive(r4, r3, fs);
    NarrowCounts(fs, user, term, status, security, r1, r2, r3, r4);
    r4
  }

  /** Each step keeps every copy of a file that passes it, so the steps together keep every copy that passes all. */
  lemma NarrowCounts(fs: seq<FileRecord>, user: Option<User>, term: string, status: string, security: string,
                     r1: seq<FileRecord>, r2: seq<FileRecord>, r3: seq<FileRecord>, r4: seq<FileRecord>)
    requires r1 == (if IsTraderUser(user) then ByUploader(fs, user.value.name) else fs)
    requires r2 == (if term != "" then BySearch(r1, term) else r1)
    requires r3 == (if status != "all" then ByStatus(r2, status) else r2)
    requires r4 == (if security != "all" then BySecurity(r3, security) else r3)
    ensures forall f {:trigger multiset(r4)[f]} :: multiset(r4)[f] == if Passes(f, user, term, status, security) then multiset(fs)[f] else 0
    ensures forall f :: f in r4 <==> f in fs && Passes(f, user, term, status, security)
  {
    forall f
      ensures multiset(r4)[f] == if Passes(f, user, term, status, security) then multiset(fs)[f] else 0
      ensures f in r4 <==> f in fs && Passes(f, user, term, status, security)
    {
      var owned := IsTraderUser(user) ==> f.uploadedBy == user.value.name;
      assert multiset(r1)[f] == if owned then multiset(fs)[f] else 0;
      assert multiset(r2)[f] == if owned && (term != "" ==> FileMatches(f, term)) then multiset(fs)[f] else 0;
      assert multiset(r3)[f] == if owned && (term != "" ==> FileMatches(f, term)) && (status != "all" ==> f.status == status)
                                then multiset(fs)[f] else 0;
    }
  }

  /** The filter effect's result: it always starts again from the seed files. */
  function FilterFiles(user: Option<User>, term: string, status: string, security: string): (r: seq<FileRecord>)
    ensures forall f :: f in r <==> f in SeedFiles() && Passes(f, user, term, status, security)
    ensures IsSubsequence(r, SeedFiles())
  {
    Narrow(SeedFiles(), user, term, status, security)
  }

  function StatusOf(x: FileRecord): string { x.status }

  /** `Array.from(new Set(mockFiles.map(file => file.status)))`. */
  function StatusOptions(): (r: seq<string>)
    ensures forall s :: s in r <==> exists i :: 0 <= i < |SeedFiles()| && SeedFiles()[i].status == s
    ensures NoDuplicates(r)
    ensures forall i, j :: 0 <= i < j < |r| ==> IndexOf(Map(SeedFiles(), StatusOf), r[i]) < IndexOf(Map(SeedFiles(), StatusOf), r[j])
  {
    DistinctFirstOccurrenceOrder(Map(SeedFiles(), StatusOf));
    Distinct(Map(SeedFiles(), StatusOf))
  }

  function SecurityOf(x: FileRecord): string { x.security }

  /** `Array.from(new Set(mockFiles.map(file => file.security)))`. */
  function SecurityOptions(): (r: seq<string>)
    ensures forall s :: s in r <==> exists i :: 0 <= i < |SeedFiles()| && SeedFiles()[i].security == s
    ensures NoDuplicates(r)
    ensures forall i, j :: 0 <= i < j < |r| ==> IndexOf(Map(SeedFiles(), SecurityOf), r[i]) < IndexOf(Map(SeedFiles(), SecurityOf), r[j])
  {
    DistinctFirstOccurrenceOrder(Map(SeedFiles(), SecurityOf));
    Distinct(Map(SeedFiles(), SecurityOf))
  }

  /** The effect's body: reassign `result` once per active filter. */
  method NarrowStepwise(fs: seq<FileRecord>, user: Option<User>, term: string, status: string, security: string)
    returns (result: seq<FileRecord>)
    ensures result == Narrow(fs, user, term, status, security)
  {
    result := fs;
    if IsTraderUser(user) {
      result := ByUploader(result, user.value.name);
    }
    if term != "" {
      result := BySearch(result, term);
    }
    if status != "all" {
      result := ByStatus(result, status);
    }
    if security != "all" {
      result := BySecurity(result, security);
    }
  }

  class FilesManagementPage {
    const user: Option<User>
    var files: seq<FileRecord>
    var filteredFiles: seq<FileRecord>
    var searchTerm: string
    var selectedStatus: string
    var selectedSecurity: string
    var currentPage: int

    /** Both lists only ever hold seed files, in seed order. */
    predicate Valid()
      reads this
    {
      IsSubsequence(files, SeedFiles()) && IsSubsequence(filteredFiles, SeedFiles()) && currentPage >= 1
    }

    /** `filteredFiles.slice((currentPage - 1) * 10, currentPage * 10)`. */
    function CurrentFiles(): (r: seq<FileRecord>)
      reads this
      requires Valid()
      ensures r == Page(filteredFiles, currentPage)
      ensures |r| <= PageSize
      ensures r != [] <==> currentPage <= TotalPages(|filteredFiles|)
      ensures forall k :: 0 <= k < |r| ==> r[k] == filteredFiles[(currentPage - 1) * PageSize + k]
      ensures |r| == if |filteredFiles| <= (currentPage - 1) * PageSize then 0
                     else if |filteredFiles| - (currentPage - 1) * PageSize < PageSize then |filteredFiles| - (currentPage - 1) * PageSize
                     else PageSize
    {
      Page(filteredFiles, currentPage)
    }

    /** The first render, followed by the filter effect with nothing selected. */
    constructor(user: Option<User>)
      ensures Valid() && this.user == user && files == SeedFiles()
      ensures searchTerm == "" && selectedStatus == "all" && selectedSecurity == "all"
      ensures filteredFiles == FilterFiles(user, "", "all", "all") && currentPage == 1
    {
      this.user := user;
      files := SeedFiles();
      searchTerm := "";
      selectedStatus := "all";
      selectedSecurity := "all";
      filteredFiles := FilterFiles(user, "", "all", "all");
      currentPage := 1;
      SubsequenceReflexive(SeedFiles());
    }

    /** The filter effect: start from the seed files, narrow them, go back to page 1. */
    method FilterEffect()
      requires Valid()
      modifies this
      ensures Valid()
      ensures filteredFiles == FilterFiles(user, searchTerm, selectedStatus, selectedSecurity)
      ensures currentPage == 1 && files == old(files)
      ensures searchTerm == old(searchTerm) && selectedStatus == old(selectedStatus)
      ensures selectedSecurity == old(selectedSecurity)
    {
      var result := NarrowStepwise(SeedFiles(), user, searchTerm, selectedStatus, selectedSecurity);
      assert result == FilterFiles(user, searchTerm, selectedStatus, selectedSecurity);
      filteredFiles := result;
      currentPage := 1;
    }

    method SetSearchTerm(term: string)
      requires Valid()
      modifies this
      ensures Valid() && searchTerm == term && currentPage == 1 && files == old(files)
      ensures filteredFiles == FilterFiles(user, term, selectedStatus, selectedSecurity)
      ensures selectedStatus == old(selectedStatus) && selectedSecurity == old(selectedSecurity)
    {
      searchTerm := term;
      FilterEffect();
    }

    method SetStatus(status: string)
      requires Valid()
      modifies this
      ensures Valid() && selectedStatus == status && currentPage == 1 && files == old(files)
      ensures filteredFiles == FilterFiles(user, searchTerm, status, selectedSecurity)
      ensures searchTerm == old(searchTerm) && selectedSecurity == old(selectedSecurity)
    {
      selectedStatus := status;
      FilterEffect();
    }

    method SetSecurity(security: string)
      requires Valid()
      modifies this
      ensures Valid() && selectedSecurity == security && currentPage == 1 && files == old(files)
      ensures filteredFiles == FilterFiles(user, searchTerm, selectedStatus, security)
      ensures searchTerm == old(searchTerm) && selectedStatus == old(selectedStatus)
    {
      selectedSecurity := security;
      FilterEffect();
    }

    method HandlePageChange(p: int)
      requires Valid() && p >= 1
      modifies this
      ensures Valid() && currentPage == p
      ensures files == old(files) && filteredFiles == old(filteredFiles)
      ensures searchTerm == old(searchTerm) && selectedStatus == old(selectedStatus)
      ensures selectedSecurity == old(selectedSecurity)
    {
      currentPage := p;
    }

    /** `handleDeleteFile`; `confirmed` is the answer to the confirmation dialog. */
    method HandleDeleteFile(id: string, confirmed: bool)
      requires Valid()
      modifies this
      ensures Valid()
      ensures !confirmed ==> files == old(files) && filteredFiles == old(filteredFiles)
      ensures confirmed ==> files == RemoveKey(old(files), FileKey, id)
                            && filteredFiles == RemoveKey(old(filteredFiles), FileKey, id)
      ensures currentPage == old(currentPage) && searchTerm == old(searchTerm)
      ensures selectedStatus == old(selectedStatus) && selectedSecurity == old(selectedSecurity)
    {
      if confirmed {
        var remaining := RemoveKey(files, FileKey, id);
        var shown := RemoveKey(filteredFiles, FileKey, id);
        SubsequenceTransitive(remaining, files, SeedFiles());
        SubsequenceTransitive(shown, filteredFiles, SeedFiles());
        files := remaining;
        filteredFiles := shown;
      }
    }
  }

  /** `getStatusColor` of the files page. */
  function FileStatusColor(status: string): (r: string)
    ensures r == "success" <==> status == "Active"
    ensures r != "success" ==> r == "default"
  {
    match status
    case "Active" => "success"
    case "Archived" => "default"
    case _ => "default"
  }

  /** `getSecurityColor`: Public is green, Protected amber, anything else neutral. */
  function SecurityColor(security: string): (r: string)
    ensures r == "success" <==> security == "Public"
    ensures r == "warning" <==> security == "Protected"
    ensures r == "success" || r == "warning" || r == "default"
  {
    match security
    case "Public" => "success"
    case "Protected" => "warning"
    case _ => "default"
  }

  /** With no role restriction, no term and 'all' filters, every seed file is shown. */
  lemma NoFiltersShowAll(user: Option<User>)
    requires !IsTraderUser(user)
    ensures FilterFiles(user, "", "all", "all") == SeedFiles()
  {
  }

  /** A trader sees only the files they uploaded, whatever else is selected. */
  lemma TraderSeesOwnFiles(user: Option<User>, term: string, status: string, security: string)
    requires IsTraderUser(user)
    ensures forall f :: f in FilterFiles(user, term, status, security) ==> f.uploadedBy == user.value.name
  {
  }

  /** The search does not look at a file's status or security: a term matching neither field drops it. */
  lemma SearchIgnoresOtherFields(f: FileRecord, user: Option<User>, term: string, status: string, security: string)
    requires term != "" && !IncludesIgnoringCase(f.fileName, term) && !IncludesIgnoringCase(f.uploadedBy, term)
    ensures f !in FilterFiles(user, term, status, security)
  {
  }
}
