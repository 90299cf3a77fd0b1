/**
 * The modal that asks for the file name a screenplay is exported under. The
 * name is trimmed and must be non-empty, end in `.md` and contain no path
 * separator; the checks run in that order and the first that fails sets the
 * error message.
 */
module ExportModal {
  import opened Wrappers
  import opened JsText

  const DefaultFilename: string := "roteiro-vivo.md"
  const Extension: string := ".md"

  /** The failed checks of `onExport`, each with the message it shows. */
  datatype ExportError = EmptyName | MissingExtension | PathSeparator
  {
    function Message(): string {
      match this
      case EmptyName => "Por favor, informe um nome de arquivo"
      case MissingExtension => "O arquivo deve ter extensão .md"
      case PathSeparator => "O nome do arquivo não pode conter barras (/ ou \\)"
    }
  }

  /** `isValid`: the trimmed name is non-empty and ends in `.md`. */
  predicate IsValidName(tempFilename: string) {
    var trimmed := Trim(tempFilename);
    |trimmed| > 0 && EndsWith(trimmed, Extension)
  }

  predicate HasSlash(s: string) { Has(s, '/') || Has(s, '\\') }

  /** What `onExport` may emit: a non-empty `.md` name without separators. */
  predicate ExportableName(name: string) {
    |name| > 0 && EndsWith(name, Extension) && !HasSlash(name)
  }

  /** The checks of `onExport`, in order: empty, extension, separators. */
  function CheckExport(tempFilename: string): Checked<string, ExportError> {
    var trimmed := Trim(tempFilename);
    if trimmed == "" then Rejected(EmptyName)
    else if !EndsWith(trimmed, Extension) then Rejected(MissingExtension)
    else if HasSlash(trimmed) then Rejected(PathSeparator)
    else Accepted(trimmed)
  }

  /** A name is accepted exactly when it is valid and has no separator; what is accepted is the trimmed name. */
  lemma CheckExportAccepts(tempFilename: string)
    ensures CheckExport(tempFilename).Accepted? <==> IsValidName(tempFilename) && !HasSlash(Trim(tempFilename))
    ensures CheckExport(tempFilename).Accepted? ==>
      CheckExport(tempFilename).value == Trim(tempFilename) && ExportableName(CheckExport(tempFilename).value)
  {
  }

  /** Which check refuses a name: blank first, then the extension, then a separator. */
  lemma CheckExportOrder(tempFilename: string)
    ensures AllSpace(tempFilename) ==> CheckExport(tempFilename) == Rejected(EmptyName)
    ensures !AllSpace(tempFilename) && !EndsWith(Trim(tempFilename), Extension) ==>
      CheckExport(tempFilename) == Rejected(MissingExtension)
    ensures IsValidName(tempFilename) && HasSlash(Trim(tempFilename)) ==> CheckExport(tempFilename) == Rejected(PathSeparator)
  {
    TrimEmptyIffAllSpace(tempFilename);
  }

  /** A name with `/` or `\` anywhere is refused, whatever else it looks like. */
  lemma SlashNamesRejected(tempFilename: string, i: nat)
    requires i < |tempFilename| && (tempFilename[i] == '/' || tempFilename[i] == '\\')
    ensures CheckExport(tempFilename).Rejected?
  {
    TrimKeepsNonSpace(tempFilename, i);
    CheckExportAccepts(tempFilename);
  }

  /** The default name passes every check. */
  lemma DefaultFilenameAccepted()
    ensures CheckExport(DefaultFilename) == Accepted(DefaultFilename)
  {
    var d := DefaultFilename;
    assert !IsSpace(d[0]) && !IsSpace(d[|d| - 1]);
    assert TrimStart(d) == d;
    assert TrimEnd(d) == d;
    assert d[|d| - |Extension|..] == Extension;
    assert forall i :: 0 <= i < |d| ==> d[i] != '/' && d[i] != '\\';
  }

  // ---------------------------------------------------------------- form

  /** The component's fields; `exported` lists the names emitted on `export` and `closeCount` counts `closeModal`. */
  datatype Form = Form(isVisible: bool, filename: string, tempFilename: string, errorMessage: Option<string>,
                       exported: seq<string>, closeCount: nat)

  /** `ngOnChanges()`. */
  function ChangedIn(f: Form): Form {
    if f.isVisible then f.(tempFilename := if f.filename != "" then f.filename else DefaultFilename, errorMessage := None)
    else f
  }

  /** `onExport()`; `onClose()` always emits, since this modal never prevents closing. */
  function ExportedIn(f: Form): Form {
    ExportedWith(f, CheckExport(f.tempFilename))
  }

  /** `onExport()` once the checks have given their verdict. */
  function ExportedWith(f: Form, verdict: Checked<string, ExportError>): Form {
    match verdict
    case Rejected(error) => f.(errorMessage := Some(error.Message()))
    case Accepted(name) => f.(errorMessage := None, exported := f.exported + [name], closeCount := f.closeCount + 1)
  }

  lemma ExportedInIsWith(f: Form, verdict: Checked<string, ExportError>)
    requires verdict == CheckExport(f.tempFilename)
    ensures verdict.Rejected? ==> ExportedIn(f) == f.(errorMessage := Some(verdict.error.Message()))
    ensures verdict.Accepted? ==>
      ExportedIn(f) == f.(errorMessage := None, exported := f.exported + [verdict.value], closeCount := f.closeCount + 1)
  {
  }

  /** `onEnterKey()`. */
  function EnterKeyIn(f: Form): Form {
    if IsValidName(f.tempFilename) then ExportedIn(f) else f
  }

  /**
   * Exporting emits at most one name, and only a trimmed, non-empty `.md`
   * name without separators; the dialog closes exactly when it emits.
   * The edited name, the input and the visibility never change.
   */
  lemma ExportEmitsOnlyValidNames(f: Form)
    ensures var g := ExportedIn(f);
      g.tempFilename == f.tempFilename && g.filename == f.filename && g.isVisible == f.isVisible
    ensures var g := ExportedIn(f);
      (g.exported == f.exported && g.closeCount == f.closeCount)
      || (|g.exported| == |f.exported| + 1 && g.exported[..|f.exported|] == f.exported
          && ExportableName(g.exported[|f.exported|]) && g.closeCount == f.closeCount + 1)
  {
    var r := CheckExport(f.tempFilename);
    CheckExportAccepts(f.tempFilename);
    if r.Accepted? {
      var g := ExportedIn(f);
      assert g.exported == f.exported + [r.value];
      assert g.exported[..|f.exported|] == f.exported;
    }
  }

  /** The error is cleared exactly when the name is emitted; otherwise it is the first failing check's message. */
  lemma ExportErrorMessage(f: Form)
    ensures ExportedIn(f).errorMessage == None <==> IsValidName(f.tempFilename) && !HasSlash(Trim(f.tempFilename))
    ensures AllSpace(f.tempFilename) ==> ExportedIn(f).errorMessage == Some(EmptyName.Message())
    ensures !AllSpace(f.tempFilename) && !EndsWith(Trim(f.tempFilename), Extension) ==>
      ExportedIn(f).errorMessage == Some(MissingExtension.Message())
    ensures IsValidName(f.tempFilename) && HasSlash(Trim(f.tempFilename)) ==>
      ExportedIn(f).errorMessage == Some(PathSeparator.Message())
  {
    CheckExportOrder(f.tempFilename);
    CheckExportAccepts(f.tempFilename);
  }

  /** Enter does nothing on an invalid form; on a valid one it can only fail on a separator. */
  lemma EnterKeyOnlyWhenValid(f: Form)
    ensures !IsValidName(f.tempFilename) ==> EnterKeyIn(f) == f
    ensures IsValidName(f.tempFilename) ==>
      EnterKeyIn(f).errorMessage == None || EnterKeyIn(f).errorMessage == Some(PathSeparator.Message())
  {
    CheckExportOrder(f.tempFilename);
  }

  /** Opening the modal without a name offers the default, and confirming exports it as it is. */
  lemma OpenThenExportDefault(f: Form)
    requires f.isVisible && f.filename == ""
    ensures ChangedIn(f).tempFilename == DefaultFilename && ChangedIn(f).errorMessage == None
    ensures ExportedIn(ChangedIn(f)).exported == f.exported + [DefaultFilename]
  {
    DefaultFilenameAccepted();
  }

  class ExportModalComponent {
    var isVisible: bool
    var filename: string
    var tempFilename: string
    var errorMessage: Option<string>
    var exported: seq<string>
    var closeCount: nat

    constructor (filename: string)
      ensures State() == Form(false, filename, "", None, [], 0)
    {
      isVisible := false;
      this.filename := filename;
      tempFilename := "";
      errorMessage := None;
      exported := [];
      closeCount := 0;
    }

    function State(): Form
      reads this
    {
      Form(isVisible, filename, tempFilename, errorMessage, exported, closeCount)
    }

    /** `isValid`. */
    function IsValid(): (b: bool)
      reads this
      ensures b <==> !AllSpace(tempFilename) && EndsWith(Trim(tempFilename), Extension)
    {
      TrimEmptyIffAllSpace(tempFilename);
      IsValidName(tempFilename)
    }

    method OnChanges()
      modifies this
      ensures State() == ChangedIn(old(State()))
    {
      if isVisible {
        tempFilename := if filename != "" then filename else DefaultFilename;
        errorMessage := None;
      }
    }

    method OnExport()
      modifies this
      ensures State() == ExportedIn(old(State()))
    {
      ghost var f := State();
      var verdict := CheckExport(tempFilename);
      ExportedInIsWith(f, verdict);
      if verdict.Rejected? {
        errorMessage := Some(verdict.error.Message());
      } else {
        errorMessage := None;
        exported := exported + [verdict.value];
        closeCount := closeCount + 1;
      }
    }

    method OnEnterKey()
      modifies this
      ensures State() == EnterKeyIn(old(State()))
    {
      if IsValid() {
        OnExport();
      }
    }
  }
}
