/**
 * The modal that edits the working directory. The trimmed path must be
 * non-empty and absolute (start with `/`); the first check that fails sets
 * the error message, and a path that passes both is emitted trimmed.
 */
module WorkingDirModal {
  import opened Wrappers
  import opened JsText

  /** The failed checks of `onSave`, each with the message it shows. */
  datatype SaveError = EmptyDirectory | RelativePath
  {
    function Message(): string {
      match this
      case EmptyDirectory => "Por favor, informe um diretório válido"
      case RelativePath => "O caminho deve ser absoluto (começar com /)"
    }
  }

  /** `isValid`: the trimmed path is non-empty. */
  predicate IsValidDirectory(tempDirectory: string) {
    |Trim(tempDirectory)| > 0
  }

  /** The checks of `onSave`, in order: valid, then absolute. */
  function CheckSave(tempDirectory: string): Checked<string, SaveError> {
    if !IsValidDirectory(tempDirectory) then Rejected(EmptyDirectory)
    else if !StartsWith(Trim(tempDirectory), "/") then Rejected(RelativePath)
    else Accepted(Trim(tempDirectory))
  }

  /** A path is accepted exactly when its trimmed form is an absolute path; that trimmed form is what is emitted. */
  lemma CheckSaveAccepts(tempDirectory: string)
    ensures CheckSave(tempDirectory).Accepted? <==> !AllSpace(tempDirectory) && StartsWith(Trim(tempDirectory), "/")
    ensures CheckSave(tempDirectory).Accepted? ==>
      CheckSave(tempDirectory).value == Trim(tempDirectory) && CheckSave(tempDirectory).value[0] == '/'
  {
    TrimEmptyIffAllSpace(tempDirectory);
  }

  /** Which check refuses a path: a blank one first, then a relative one. */
  lemma CheckSaveOrder(tempDirectory: string)
    ensures AllSpace(tempDirectory) ==> CheckSave(tempDirectory) == Rejected(EmptyDirectory)
    ensures !AllSpace(tempDirectory) && !StartsWith(Trim(tempDirectory), "/") ==>
      CheckSave(tempDirectory) == Rejected(RelativePath)
  {
    TrimEmptyIffAllSpace(tempDirectory);
  }

  /** An absolute path with no surrounding white space is saved exactly as typed. */
  lemma AbsolutePathSavedAsIs(path: string)
    requires |path| > 0 && path[0] == '/' && !IsSpace(path[|path| - 1])
    ensures CheckSave(path) == Accepted(path)
  {
    assert TrimStart(path) == path;
    assert TrimEnd(path) == path;
  }

  // ---------------------------------------------------------------- form

  /** The component's fields; `saved` lists the paths emitted on `save` and `closeCount` counts `closeModal`. */
  datatype Form = Form(isVisible: bool, currentDirectory: Option<string>, tempDirectory: string,
                       errorMessage: Option<string>, saved: seq<string>, closeCount: nat)

  /** `ngOnChanges()`: while visible, the form restarts from `currentDirectory || ''`, with no error. */
  function ChangedIn(f: Form): Form {
    if f.isVisible then
      f.(tempDirectory := if Truthy(f.currentDirectory) then f.currentDirectory.value else "", errorMessage := None)
    else f
  }

  /** `onSave()`; `onClose()` always emits, since this modal never prevents closing. */
  function SavedIn(f: Form): Form {
    match CheckSave(f.tempDirectory)
    case Rejected(error) => f.(errorMessage := Some(error.Message()))
    case Accepted(path) => f.(errorMessage := None, saved := f.saved + [path], closeCount := f.closeCount + 1)
  }

  lemma SavedInCases(f: Form)
    ensures !IsValidDirectory(f.tempDirectory) ==> SavedIn(f) == f.(errorMessage := Some(EmptyDirectory.Message()))
    ensures IsValidDirectory(f.tempDirectory) && !StartsWith(Trim(f.tempDirectory), "/") ==>
      SavedIn(f) == f.(errorMessage := Some(RelativePath.Message()))
    ensures IsValidDirectory(f.tempDirectory) && StartsWith(Trim(f.tempDirectory), "/") ==>
      SavedIn(f) == f.(errorMessage := None, saved := f.saved + [Trim(f.tempDirectory)], closeCount := f.closeCount + 1)
  {
  }

  /** `onEnterKey()`. */
  function EnterKeyIn(f: Form): Form {
    if IsValidDirectory(f.tempDirectory) then SavedIn(f) else f
  }

  /** Opening restarts from the current directory, or from an empty path when there is none. */
  lemma OpenResets(f: Form)
    requires f.isVisible
    ensures ChangedIn(f).tempDirectory == f.currentDirectory.GetOr("") && ChangedIn(f).errorMessage == None
    ensures ChangedIn(f).saved == f.saved && ChangedIn(f).closeCount == f.closeCount
  {
  }

  /**
   * Saving emits at most one path, and only a non-empty absolute one; the
   * dialog closes exactly when it emits, and the error is cleared exactly then.
   */
  lemma SaveEmitsOnlyAbsolutePaths(f: Form)
    ensures var g := SavedIn(f);
      g.tempDirectory == f.tempDirectory && g.currentDirectory == f.currentDirectory && g.isVisible == f.isVisible
    ensures var g := SavedIn(f);
      (g.saved == f.saved && g.closeCount == f.closeCount && g.errorMessage.Some?)
      || (|g.saved| == |f.saved| + 1 && g.saved[..|f.saved|] == f.saved && g.saved[|f.saved|] == Trim(f.tempDirectory)
          && g.saved[|f.saved|][0] == '/' && g.closeCount == f.closeCount + 1 && g.errorMessage == None)
  {
    CheckSaveAccepts(f.tempDirectory);
    var r := CheckSave(f.tempDirectory);
    if r.Accepted? {
      assert SavedIn(f).saved[..|f.saved|] == f.saved;
    }
  }

  /** Enter does nothing on an invalid form; on a valid one it can only fail on a relative path. */
  lemma EnterKeyOnlyWhenValid(f: Form)
    ensures !IsValidDirectory(f.tempDirectory) ==> EnterKeyIn(f) == f
    ensures IsValidDirectory(f.tempDirectory) ==>
      EnterKeyIn(f).errorMessage == None || EnterKeyIn(f).errorMessage == Some(RelativePath.Message())
  {
  }

  class WorkingDirModalComponent {
    var isVisible: bool
    var currentDirectory: Option<string>
    var tempDirectory: string
    var errorMessage: Option<string>
    var saved: seq<string>
    var closeCount: nat

    constructor (currentDirectory: Option<string>)
      ensures State() == Form(false, currentDirectory, "", None, [], 0)
    {
      isVisible := false;
      this.currentDirectory := currentDirectory;
      tempDirectory := "";
      errorMessage := None;
      saved := [];
      closeCount := 0;
    }

    function State(): Form
      reads this
    {
      Form(isVisible, currentDirectory, tempDirectory, errorMessage, saved, closeCount)
    }

    /** `isValid`. */
    function IsValid(): (b: bool)
      reads this
      ensures b <==> !AllSpace(tempDirectory)
    {
      TrimEmptyIffAllSpace(tempDirectory);
      IsValidDirectory(tempDirectory)
    }

    method OnChanges()
      modifies this
      ensures State() == ChangedIn(old(State()))
    {
      if isVisible {
        tempDirectory := if Truthy(currentDirectory) then currentDirectory.value else "";
        errorMessage := None;
      }
    }

    method OnSave()
      modifies this
      ensures State() == SavedIn(old(State()))
    {
      SavedInCases(State());
      if !IsValid() {
        errorMessage := Some(EmptyDirectory.Message());
        return;
      }
      var trimmedDir := Trim(tempDirectory);
      if !StartsWith(trimmedDir, "/") {
        errorMessage := Some(RelativePath.Message());
        return;
      }
      errorMessage := None;
      saved := saved + [trimmedDir];
      closeCount := closeCount + 1;
    }

    method OnEnterKey()
      modifies this
      ensures State() == EnterKeyIn(old(State()))
    {
      if IsValid() {
        OnSave();
      }
    }
  }
}
