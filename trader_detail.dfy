/**
 * The trader detail page: the trader's file list with its delete button, and the upload dialog
 * whose interval advances the progress bar and finally puts the new file at the top.
 */
module TraderDetail {
  import opened Common
  import opened Seqs
  import opened Text

  /** A file as listed on the trader page. */
  datatype TraderFile = TraderFile(
    id: string, fileName: string, createdDate: string, itemsCount: int, security: string,
    fileLink: string, totalViews: int, status: string)

  function TraderFileKey(f: TraderFile): string { f.id }

  /** The three files the page starts with. */
  function TraderFiles(): seq<TraderFile> {
    [ TraderFile("f1", "Product Catalog Q3.xlsx", "2023-10-15", 250, "Protected", "#", 42, "Active"),
      TraderFile("f2", "Inventory List.csv", "2023-09-20", 180, "Public", "#", 28, "Active"),
      TraderFile("f3", "Summer Products.xlsx", "2023-08-05", 320, "Protected", "#", 15, "Archived") ]
  }

  /** The file an upload adds: numbered after the list length seen when the upload started. */
  function UploadedFile(count: nat, fileName: string, today: string): (r: TraderFile)
    ensures r.id == "f" + NatText(count + 1) && r.fileName == fileName && r.createdDate == today
    ensures r.itemsCount == 0 && r.totalViews == 0
    ensures r.status == "Active" && r.security == "Protected"
  {
    TraderFile("f" + NatText(count + 1), fileName, today, 0, "Protected", "#", 0, "Active")
  }

  /** How many interval ticks an upload takes from progress `p` until it completes. */
  function TicksToComplete(p: int): nat
    decreases if p >= 100 then 0 else 100 - p
  {
    if p >= 100 then 1 else 1 + TicksToComplete(p + 10)
  }

  /** From a progress that is a multiple of 10, the upload needs one tick per missing 10% plus one. */
  lemma {:induction false} TicksFormula(p: int)
    requires 0 <= p <= 100 && p % 10 == 0
    ensures TicksToComplete(p) == (100 - p) / 10 + 1
    decreases 100 - p
  {
    if p < 100 {
      TicksFormula(p + 10);
    }
  }

  /** A fresh upload completes on the eleventh tick. */
  lemma UploadTakesElevenTicks()
    ensures TicksToComplete(0) == 11
  {
    TicksFormula(0);
  }

  class TraderDetailPage {
    var files: seq<TraderFile>
    var openUploadDialog: bool
    var selectedFile: Option<string>
    var uploadProgress: int
    var isUploading: bool
    /** Whether an upload's interval is still scheduled. */
    var intervalRunning: bool
    /** What the interval's closure saw when the upload started: the list length and the file. */
    var startCount: nat
    var startName: string

    constructor()
      ensures files == TraderFiles() && !openUploadDialog && selectedFile.None?
      ensures uploadProgress == 0 && !isUploading && !intervalRunning
    {
      files := TraderFiles();
      openUploadDialog := false;
      selectedFile := None;
      uploadProgress := 0;
      isUploading := false;
      intervalRunning := false;
      startCount := 0;
      startName := "";
    }

    /** The Upload button is disabled while no file is chosen or an upload runs. */
    predicate UploadDisabled()
      reads this
    {
      selectedFile.None? || isUploading
    }

    /** `handleFileDelete`; `confirmed` is the answer to the confirmation dialog. */
    method HandleFileDelete(id: string, confirmed: bool)
      modifies this
      ensures confirmed ==> files == RemoveKey(old(files), TraderFileKey, id)
      ensures !confirmed ==> files == old(files)
      ensures openUploadDialog == old(openUploadDialog) && selectedFile == old(selectedFile)
      ensures uploadProgress == old(uploadProgress) && isUploading == old(isUploading)
      ensures intervalRunning == old(intervalRunning)
      ensures startCount == old(startCount) && startName == old(startName)
    {
      if confirmed {
        files := RemoveKey(files, TraderFileKey, id);
      }
    }

    method HandleUploadDialogOpen()
      modifies this
      ensures openUploadDialog
      ensures files == old(files) && selectedFile == old(selectedFile)
      ensures uploadProgress == old(uploadProgress) && isUploading == old(isUploading)
      ensures intervalRunning == old(intervalRunning)
      ensures startCount == old(startCount) && startName == old(startName)
    {
      openUploadDialog := true;
    }

    /** `handleUploadDialogClose`: the dialog closes and forgets the chosen file and the progress. */
    method HandleUploadDialogClose()
      modifies this
      ensures !openUploadDialog && selectedFile.None? && uploadProgress == 0 && !isUploading
      ensures files == old(files) && intervalRunning == old(intervalRunning)
      ensures startCount == old(startCount) && startName == old(startName)
    {
      openUploadDialog := false;
      selectedFile := None;
      uploadProgress := 0;
      isUploading := false;
    }

    /** `handleFileChange`: the first chosen file, if any, becomes the selection. */
    method HandleFileChange(chosen: seq<string>)
      modifies this
      ensures |chosen| > 0 ==> selectedFile == Some(chosen[0])
      ensures |chosen| == 0 ==> selectedFile == old(selectedFile)
      ensures files == old(files) && openUploadDialog == old(openUploadDialog)
      ensures uploadProgress == old(uploadProgress) && isUploading == old(isUploading)
      ensures intervalRunning == old(intervalRunning)
      ensures startCount == old(startCount) && startName == old(startName)
    {
      if |chosen| > 0 {
        selectedFile := Some(chosen[0]);
      }
    }

    /**
     * `handleUploadFile`: without a chosen file it only reports an error; otherwise it starts
     * the upload at 0% and schedules the interval.
     */
    method HandleUploadFile() returns (error: Option<string>)
      modifies this
      ensures old(selectedFile).None? ==> error == Some("Please select a file to upload")
      ensures old(selectedFile).None? ==>
                files == old(files) && openUploadDialog == old(openUploadDialog)
                && selectedFile == old(selectedFile) && uploadProgress == old(uploadProgress)
                && isUploading == old(isUploading) && intervalRunning == old(intervalRunning)
                && startCount == old(startCount) && startName == old(startName)
      ensures old(selectedFile).Some? ==>
                error.None? && isUploading && uploadProgress == 0 && intervalRunning
                && startCount == |old(files)| && startName == old(selectedFile).value
                && files == old(files) && openUploadDialog == old(openUploadDialog)
                && selectedFile == old(selectedFile)
    {
      if selectedFile.None? {
        error := Some("Please select a file to upload");
        return;
      }
      error := None;
      isUploading := true;
      uploadProgress := 0;
      intervalRunning := true;
      startCount := |files|;
      startName := selectedFile.value;
    }

    /**
     * One run of the interval. Below 100% it adds 10%. At 100% or more it stops the
     * interval, closes the dialog (which resets the progress to 0) and puts the new file first.
     */
    method Tick(today: string)
      requires intervalRunning
      modifies this
      ensures old(uploadProgress) < 100 ==>
                uploadProgress == old(uploadProgress) + 10 && intervalRunning
                && files == old(files) && openUploadDialog == old(openUploadDialog)
                && selectedFile == old(selectedFile) && isUploading == old(isUploading)
      ensures old(uploadProgress) >= 100 ==>
                !intervalRunning && !isUploading && !openUploadDialog && selectedFile.None?
                && uploadProgress == 0
                && files == [UploadedFile(old(startCount), old(startName), today)] + old(files)
      ensures startCount == old(startCount) && startName == old(startName)
    {
      if uploadProgress >= 100 {
        intervalRunning := false;
        isUploading := false;
        HandleUploadDialogClose();
        files := [UploadedFile(startCount, startName, today)] + files;
      } else {
        uploadProgress := uploadProgress + 10;
      }
    }
  }

  /**
   * Deleting the first file and then uploading numbers the new file after the shorter list,
   * which gives it the id of the last file still listed.
   */
  lemma UploadAfterDeleteRepeatsId(fileName: string, today: string)
    ensures var left := RemoveKey(TraderFiles(), TraderFileKey, "f1");
      TraderFiles()[2] in left
      && UploadedFile(|left|, fileName, today).id == TraderFiles()[2].id
  {
    var left := RemoveKey(TraderFiles(), TraderFileKey, "f1");
    assert TraderFiles()[0].id == "f1" && TraderFiles()[1].id != "f1" && TraderFiles()[2].id != "f1";
    assert TraderFiles()[1] in left && TraderFiles()[2] in left;
    assert |left| == 2 by {
      assert left == TraderFiles()[1..];
    }
    assert NatText(3) == "3";
  }
}
