/**
 * The "Importar Projeto" dialog: which files it accepts, when it lets an import start,
 * what it hands to the importer, and how opening, closing and importing reset its form.
 */
module ImportProjectDialog {
  import opened Wrappers
  import Text
  import Files
  import ProjectImport

  type UploadedFile = Files.UploadedFile

  const CsvMimeType := "text/csv"
  const XlsxMimeType := "application/vnd.openxmlformats-officedocument.spreadsheetml.sheet"

  /** A CSV or XLSX file, recognised by MIME type or by name. */
  predicate Accepted(file: UploadedFile)
  {
    file.mimeType == CsvMimeType || Text.EndsWith(file.name, ".csv")
    || file.mimeType == XlsxMimeType || Text.EndsWith(file.name, ".xlsx")
  }

  /** What `onImport` receives: the file, the trimmed name, and the trimmed description or `undefined`. */
  datatype ImportRequest = ImportRequest(file: UploadedFile, projectName: string, projectDescription: Option<string>)

  function RequestFor(file: UploadedFile, projectName: string, projectDescription: string): (r: ImportRequest)
    ensures r.projectName == Text.Trim(projectName)
    ensures r.projectDescription.None? <==> Text.IsBlank(projectDescription)
    ensures r.projectDescription.Some? ==> r.projectDescription.value == Text.Trim(projectDescription)
  {
    Text.TrimEmptyIffBlank(projectDescription);
    var d := Text.Trim(projectDescription);
    ImportRequest(file, Text.Trim(projectName), if d != "" then Some(d) else None)
  }

  /**
   * A file accepted by its name reaches the importer's parser for that extension; one
   * accepted only by its MIME type, with neither extension, is refused by the importer
   * as an unsupported format.
   */
  lemma AcceptedFileDispatch(file: UploadedFile)
    requires Accepted(file)
    ensures !Text.EndsWith(file.name, ".csv") && !Text.EndsWith(file.name, ".xlsx") ==>
      ProjectImport.Imported(file) == Failure(ProjectImport.Unsupported)
    ensures Text.EndsWith(file.name, ".csv") ==>
      ProjectImport.Imported(file) != Failure(ProjectImport.Unsupported)
  {
    if Text.EndsWith(file.name, ".csv") && file.text.Success? {
      var r := ProjectImport.Imported(file);
      if r.Failure? {
        assert r.error == ProjectImport.NoData;
      }
    }
  }

  /** The dialog's state. */
  class Dialog {
    var selectedFile: Option<UploadedFile>
    var projectName: string
    var projectDescription: string
    var open: bool
    var isImporting: bool

    constructor ()
      ensures selectedFile == None && projectName == "" && projectDescription == ""
      ensures !open && !isImporting
    {
      selectedFile := None;
      projectName, projectDescription := "", "";
      open, isImporting := false, false;
    }

    /** The condition `handleImport` checks: a selected file and a name that is not blank. */
    predicate CanImport()
      reads this
    {
      selectedFile.Some? && !Text.IsBlank(projectName)
    }

    /** The "Importar" button's `disabled` condition. */
    predicate ImportDisabled()
      reads this
    {
      selectedFile.None? || Text.Trim(projectName) == "" || isImporting
    }

    /** The button is enabled exactly when an import may start and none is running. */
    lemma EnabledIffImportable()
      ensures !ImportDisabled() <==> CanImport() && !isImporting
    {
      Text.TrimEmptyIffBlank(projectName);
    }

    /** `handleFileSelect`: an accepted file becomes the selection; any other leaves it as it was. */
    method HandleFileSelect(file: UploadedFile)
      modifies this`selectedFile
      ensures selectedFile == if Accepted(file) then Some(file) else old(selectedFile)
    {
      if Accepted(file) {
        selectedFile := Some(file);
      }
    }

    /**
     * The first half of `handleImport`: when an import may start, the busy flag is set and
     * the request for `onImport` is returned; otherwise nothing happens.
     */
    method BeginImport() returns (request: Option<ImportRequest>)
      modifies this`isImporting
      ensures request.Some? <==> old(CanImport())
      ensures request.Some? ==>
        isImporting && request.value == RequestFor(old(selectedFile).value, projectName, projectDescription)
      ensures request.None? ==> isImporting == old(isImporting)
    {
      request := None;
      if selectedFile.Some? && !Text.IsBlank(projectName) {
        isImporting := true;
        request := Some(RequestFor(selectedFile.value, projectName, projectDescription));
      }
    }

    /**
     * The second half: once `onImport` has resolved (`ok`) the form is cleared and the
     * dialog closed; when it rejected, the form stays. The busy flag drops either way.
     */
    method FinishImport(ok: bool)
      modifies this`selectedFile, this`projectName, this`projectDescription, this`open, this`isImporting
      ensures !isImporting
      ensures ok ==> selectedFile == None && projectName == "" && projectDescription == "" && !open
      ensures !ok ==>
        && selectedFile == old(selectedFile) && projectName == old(projectName)
        && projectDescription == old(projectDescription) && open == old(open)
    {
      if ok {
        selectedFile := None;
        projectName, projectDescription := "", "";
        open := false;
      }
      isImporting := false;
    }

    /** `handleImport` as a whole, with `ok` the outcome of `onImport`. */
    method HandleImport(ok: bool) returns (request: Option<ImportRequest>)
      modifies this`selectedFile, this`projectName, this`projectDescription, this`open, this`isImporting
      ensures request.Some? <==> old(CanImport())
      ensures request.Some? ==> request.value == RequestFor(old(selectedFile).value, old(projectName), old(projectDescription))
      ensures request.Some? ==> !isImporting
      ensures request.Some? && ok ==> selectedFile == None && projectName == "" && projectDescription == "" && !open
      ensures request.None? || !ok ==>
        && selectedFile == old(selectedFile) && projectName == old(projectName)
        && projectDescription == old(projectDescription) && open == old(open)
      ensures request.None? ==> isImporting == old(isImporting)
    {
      request := BeginImport();
      if request.Some? {
        FinishImport(ok);
      }
    }

    /**
     * `handleOpenChange`: ignored while importing; otherwise the dialog opens or closes,
     * and closing clears the file, name and description.
     */
    method HandleOpenChange(newOpen: bool)
      modifies this`open, this`selectedFile, this`projectName, this`projectDescription
      ensures old(isImporting) ==>
        && open == old(open) && selectedFile == old(selectedFile)
        && projectName == old(projectName) && projectDescription == old(projectDescription)
      ensures !old(isImporting) ==> open == newOpen
      ensures !old(isImporting) && !newOpen ==> selectedFile == None && projectName == "" && projectDescription == ""
      ensures !old(isImporting) && newOpen ==>
        && selectedFile == old(selectedFile)
        && projectName == old(projectName) && projectDescription == old(projectDescription)
    {
      if !isImporting {
        open := newOpen;
        if !newOpen {
          selectedFile := None;
          projectName, projectDescription := "", "";
        }
      }
    }
  }
}
