/**
 * The modal shown when a screenplay being saved clashes with an existing
 * one: it compares the two sizes and resolves the conflict by overwriting,
 * keeping the existing file, renaming the new one or cancelling. Renaming
 * suggests the name with its counter reset to ` (1)` and accepts any
 * non-blank name, trimmed.
 */
module ConflictResolutionModal {
  import opened Wrappers
  import opened JsText
  import opened ModalFooter

  /** `ConflictResolution.action`. */
  datatype Action = Overwrite | KeepExisting | Rename | Cancel

  /** What the modal emits on `resolve`; `newName` only comes with `Rename`. */
  datatype ConflictResolution = ConflictResolution(action: Action, newName: Option<string>)

  /** The part of the existing screenplay the modal reads. */
  datatype Screenplay = Screenplay(content: Option<string>)

  // ---------------------------------------------------------------- sizes

  /** `existingContentLength`: `existingScreenplay?.content?.length || 0`. */
  function ExistingContentLength(existing: Option<Screenplay>): nat {
    match existing
    case Some(Screenplay(Some(content))) => |content|
    case _ => 0
  }

  /** `newContentLength`: `newContent?.length || 0`. */
  function NewContentLength(newContent: Option<string>): nat {
    match newContent
    case Some(content) => |content|
    case None => 0
  }

  /** A missing screenplay or content counts as 0 characters; a present one by its length. */
  lemma LengthsDefaultToZero(existing: Option<Screenplay>, newContent: Option<string>)
    ensures (existing.None? || existing.value.content.None?) ==> ExistingContentLength(existing) == 0
    ensures existing.Some? && existing.value.content.Some? ==> ExistingContentLength(existing) == |existing.value.content.value|
    ensures newContent.None? ==> NewContentLength(newContent) == 0
    ensures newContent.Some? ==> NewContentLength(newContent) == |newContent.value|
  {
  }

  const SameSize: string := "mesmo tamanho"
  const CharactersSuffix: string := " caracteres"

  /** `contentDifference`, from the two lengths. */
  function ContentDifference(newLength: nat, existingLength: nat): string {
    var diff := newLength - existingLength;
    if diff == 0 then SameSize
    else if diff > 0 then "+" + IntToString(diff) + CharactersSuffix
    else IntToString(diff) + CharactersSuffix
  }

  /**
   * The text says "mesmo tamanho" exactly when the lengths are equal;
   * otherwise it is a signed count of characters, `+` when the new content
   * is longer and `-` when it is shorter, whose digits read back as the
   * size of the difference.
   */
  lemma ContentDifferenceCases(newLength: nat, existingLength: nat)
    ensures ContentDifference(newLength, existingLength) == SameSize <==> newLength == existingLength
    ensures var r := ContentDifference(newLength, existingLength);
      newLength != existingLength ==>
        |r| > 1 + |CharactersSuffix| && EndsWith(r, CharactersSuffix)
        && (r[0] == '+' <==> newLength > existingLength) && (r[0] == '-' <==> newLength < existingLength)
        && AllDigits(r[1..|r| - |CharactersSuffix|])
        && DigitsValue(r[1..|r| - |CharactersSuffix|]) == if newLength > existingLength then newLength - existingLength else existingLength - newLength
  {
    var r := ContentDifference(newLength, existingLength);
    if newLength != existingLength {
      var n: nat := if newLength > existingLength then newLength - existingLength else existingLength - newLength;
      var sign := if newLength > existingLength then "+" else "-";
      assert r == sign + NatToString(n) + CharactersSuffix;
      assert r[1..|r| - |CharactersSuffix|] == NatToString(n);
      DigitsValueOfNatToString(n);
      assert r[0] == sign[0];
    } else {
      assert r == SameSize;
    }
    if newLength != existingLength {
      assert r[0] == '+' || r[0] == '-';
      assert r != SameSize by {
        assert SameSize[0] == 'm';
      }
    }
  }

  // --------------------------------------------------------- rename name

  /** The number of digits at the end of `s`. */
  function TrailingDigitCount(s: string): (n: nat)
    ensures n <= |s| && AllDigits(s[|s| - n..])
    ensures n < |s| ==> !IsDigit(s[|s| - 1 - n])
  {
    if s != [] && IsDigit(s[|s| - 1]) then
      var n := TrailingDigitCount(s[..|s| - 1]);
      DigitRunExtends(s, n);
      n + 1
    else 0
  }

  /** A run of `n` digits ending just before a final digit grows into a run of `n + 1` digits. */
  lemma DigitRunExtends(s: string, n: nat)
    requires s != [] && IsDigit(s[|s| - 1]) && n <= |s| - 1
    requires AllDigits(s[..|s| - 1][|s| - 1 - n..])
    requires n < |s| - 1 ==> !IsDigit(s[..|s| - 1][|s| - 2 - n])
    ensures AllDigits(s[|s| - (n + 1)..])
    ensures n + 1 < |s| ==> !IsDigit(s[|s| - 2 - n])
  {
    var inner := s[..|s| - 1];
    var run := s[|s| - (n + 1)..];
    forall i | 0 <= i < |run| ensures IsDigit(run[i]) {
      if i < n {
        assert run[i] == inner[|inner| - n..][i];
      }
    }
    if n + 1 < |s| {
      assert s[|s| - 2 - n] == inner[|s| - 2 - n];
    }
  }

  /**
   * Where the final counter `(digits)` of a name opens, if the name ends in
   * one: the position of its `(`.
   */
  function CounterOpen(name: string): (r: Option<nat>)
    ensures r.Some? ==>
      (r.value + 2 < |name| && name[r.value] == '(' && name[|name| - 1] == ')' && AllDigits(name[r.value + 1..|name| - 1]))
  {
    if name != [] && name[|name| - 1] == ')' then
      var inner := name[..|name| - 1];
      var digits := TrailingDigitCount(inner);
      if digits >= 1 && |inner| >= digits + 1 && inner[|inner| - digits - 1] == '(' then
        assert name[|inner| - digits..|name| - 1] == inner[|inner| - digits..];
        Some(|inner| - digits - 1)
      else None
    else None
  }

  /**
   * `name.replace(/\s*\(\d+\)$/, '')`: a final counter `(digits)` is
   * removed together with all the white space before it.
   */
  function StripCounter(name: string): string {
    match CounterOpen(name)
    case Some(open) => TrimEnd(name[..open])
    case None => name
  }

  /** `t` is white space, `(`, at least one digit and `)`, where the `(` is at `i`. */
  predicate CounterSuffixAt(t: string, i: int) {
    0 <= i && i + 2 < |t| && AllSpace(t[..i]) && t[i] == '(' && AllDigits(t[i + 1..|t| - 1]) && t[|t| - 1] == ')'
  }

  /** Digits after a non-digit are counted exactly. */
  lemma {:induction false} TrailingDigitsOf(x: string, d: string)
    requires AllDigits(d) && x != [] && !IsDigit(x[|x| - 1])
    ensures TrailingDigitCount(x + d) == |d|
    decreases |d|
  {
    if d != [] {
      assert (x + d)[..|x + d| - 1] == x + d[..|d| - 1];
      TrailingDigitsOf(x, d[..|d| - 1]);
    } else {
      assert x + d == x;
    }
  }

  /** A name ending in `(digits)` has its counter found where it opens. */
  lemma CounterOpenOf(x: string, d: string)
    requires |d| >= 1 && AllDigits(d)
    ensures CounterOpen(x + "(" + d + ")") == Some(|x|)
  {
    var name := x + "(" + d + ")";
    var inner := name[..|name| - 1];
    assert inner == (x + "(") + d;
    TrailingDigitsOf(x + "(", d);
  }

  /** Trimming the end removes exactly the appended white space. */
  lemma {:induction false} TrimEndOfSpaces(b: string, ws: string)
    requires AllSpace(ws) && (b == [] || !IsSpace(b[|b| - 1]))
    ensures TrimEnd(b + ws) == b
    decreases |ws|
  {
    if ws != [] {
      assert (b + ws)[..|b + ws| - 1] == b + ws[..|ws| - 1];
      TrimEndOfSpaces(b, ws[..|ws| - 1]);
    } else {
      assert b + ws == b;
    }
  }

  /**
   * A name that is a base not ending in white space, then white space, then
   * a counter `(digits)`, loses everything after the base.
   */
  lemma StripCounterRemovesCounter(b: string, ws: string, d: string)
    requires b == [] || !IsSpace(b[|b| - 1])
    requires AllSpace(ws) && |d| >= 1 && AllDigits(d)
    ensures StripCounter(b + ws + "(" + d + ")") == b
  {
    CounterOpenOf(b + ws, d);
    assert (b + ws + "(" + d + ")")[..|b + ws|] == b + ws;
    TrimEndOfSpaces(b, ws);
  }

  /**
   * Whatever `StripCounter` removes is a counter with its leading white space,
   * and what it keeps is a prefix of the name that does not end in white space.
   */
  lemma StripCounterShape(name: string)
    ensures var r := StripCounter(name);
      r == name || (|r| < |name| && name[..|r|] == r && (r == [] || !IsSpace(r[|r| - 1]))
                    && exists i :: CounterSuffixAt(name[|r|..], i))
  {
    var r := StripCounter(name);
    if CounterOpen(name).Some? {
      var open := CounterOpen(name).value;
      var head := name[..open];
      assert r == TrimEnd(head);
      var t := name[|r|..];
      var i := open - |r|;
      assert t[..i] == head[|r|..];
      assert t[i] == name[open];
      assert t[i + 1..|t| - 1] == name[open + 1..|name| - 1];
      assert CounterSuffixAt(t, i);
    }
  }

  /** A name without trailing white space is left alone by `TrimEnd`. */
  lemma TrimEndKeeps(s: string)
    requires s == [] || !IsSpace(s[|s| - 1])
    ensures TrimEnd(s) == s
  {
  }

  /** `onShowRename()`'s suggestion: the name without its counter, then ` (1)`. */
  function RenameSuggestion(name: string): string {
    StripCounter(name) + " (1)"
  }

  /** Stripping a suggestion gives back its base, trimmed at the end. */
  lemma StripSuggestion(b: string)
    ensures StripCounter(b + " (1)") == TrimEnd(b)
  {
    assert b + " (1)" == (b + " ") + "(" + "1" + ")";
    CounterTrimmed(b + " ", "1");
    assert (b + " ")[..|b + " "| - 1] == b;
  }

  /** A name ending in `(digits)` is stripped to what comes before, trimmed at the end. */
  lemma CounterTrimmed(x: string, d: string)
    requires |d| >= 1 && AllDigits(d)
    ensures StripCounter(x + "(" + d + ")") == TrimEnd(x)
  {
    CounterOpenOf(x, d);
    assert (x + "(" + d + ")")[..|x|] == x;
  }

  /**
   * The suggestion always ends in ` (1)`, and showing the rename input
   * again suggests the same name, unless the original ended in white space,
   * which the second pass trims.
   */
  lemma RenameSuggestionStable(name: string)
    ensures EndsWith(RenameSuggestion(name), " (1)")
    ensures RenameSuggestion(RenameSuggestion(name)) == TrimEnd(StripCounter(name)) + " (1)"
    ensures (name == [] || !IsSpace(name[|name| - 1])) ==> RenameSuggestion(RenameSuggestion(name)) == RenameSuggestion(name)
  {
    var b := StripCounter(name);
    StripSuggestion(b);
    if name == [] || !IsSpace(name[|name| - 1]) {
      assert b == [] || !IsSpace(b[|b| - 1]);
      TrimEndKeeps(b);
    }
  }

  /** A base not ending in white space, white space and a counter: the suggestion is the base with ` (1)`. */
  lemma SuggestionOfCounted(b: string, ws: string, d: string)
    requires b == [] || !IsSpace(b[|b| - 1])
    requires AllSpace(ws) && |d| >= 1 && AllDigits(d)
    ensures RenameSuggestion(b + ws + "(" + d + ")") == b + " (1)"
  {
    StripCounterRemovesCounter(b, ws, d);
  }

  /** A repeated counter is reset to 1. */
  lemma RenameSuggestionResetsCounter()
    ensures RenameSuggestion("cena (3)") == "cena (1)"
  {
    SuggestionOfCounted("cena", " ", "3");
    assert "cena" + " " + "(" + "3" + ")" == "cena (3)";
  }

  /** A counter of several digits without a space before it is replaced as well. */
  lemma RenameSuggestionReplacesLongCounter()
    ensures RenameSuggestion("cena(12)") == "cena (1)"
  {
    SuggestionOfCounted("cena", "", "12");
    assert "cena" + "" + "(" + "12" + ")" == "cena(12)";
  }

  /** A name without a counter keeps its text and gains ` (1)`. */
  lemma RenameSuggestionAddsCounter()
    ensures RenameSuggestion("cena") == "cena (1)"
  {
    assert "cena"[3] != ')';
  }

  // -------------------------------------------------------------- buttons

  /** `defaultButtons`. */
  const DefaultButtons: seq<ModalButton> := [
    ModalButton(Some("Sobrescrever"), Some(Danger), Some("overwrite"), None, None,
                Some("Substituir o roteiro existente pelo novo"), Some("fas fa-sync-alt"), None),
    ModalButton(Some("Manter Existente"), Some(Secondary), Some("keep-existing"), None, None,
                Some("Manter o roteiro existente e descartar o novo"), Some("fas fa-ban"), None),
    ModalButton(Some("Renomear"), Some(Primary), Some("rename"), None, None,
                Some("Salvar com um nome diferente"), Some("fas fa-edit"), None)
  ]

  /** `renameButtons`: confirming is disabled while the name is blank. */
  function RenameButtons(newName: string): seq<ModalButton> {
    [
      ModalButton(Some("Voltar"), Some(Secondary), Some("back"), None, None, None, Some("fas fa-arrow-left"), None),
      ModalButton(Some("Confirmar Renomeação"), Some(Primary), Some("confirm-rename"), Some(Trim(newName) == ""), None,
                  None, Some("fas fa-check"), None)
    ]
  }

  // ----------------------------------------------------------------- form

  /**
   * The component's fields; `resolved` lists what was emitted on `resolve`
   * and `closeCount` counts the `closeModal` emissions.
   */
  datatype Form = Form(isVisible: bool, existing: Option<Screenplay>, newFileName: string, newContent: Option<string>,
                       showRenameInput: bool, newName: string, resolved: seq<ConflictResolution>, closeCount: nat)

  /** `ngOnInit()`: the suggested name starts as the incoming file name, when there is one. */
  function InitIn(f: Form): Form {
    if f.newFileName != "" then f.(newName := f.newFileName) else f
  }

  /** `BaseModalComponent.preventClose()`, which this modal does not override: closing is never prevented. */
  predicate PreventClose(f: Form) {
    false
  }

  /** `BaseModalComponent.onClose()`: emit `closeModal` unless closing is prevented. */
  function BaseClosedIn(f: Form): Form {
    if PreventClose(f) then f else f.(closeCount := f.closeCount + 1)
  }

  /**
   * `onClose()` as written: hide the rename input, emit `closeModal`, then
   * call `super.onClose()`.
   */
  function ClosedAsWrittenIn(f: Form): Form {
    BaseClosedIn(f.(showRenameInput := false, closeCount := f.closeCount + 1))
  }

  /** `onOverwrite()`, `onKeepExisting()` and `onCancel()` as written: emit the choice, then `close()`, which is `onClose()`. */
  function ChosenAsWrittenIn(f: Form, action: Action): Form {
    ClosedAsWrittenIn(f.(resolved := f.resolved + [ConflictResolution(action, None)]))
  }

  /** `onClose()` emitting `closeModal` once. */
  function ClosedIn(f: Form): Form {
    f.(showRenameInput := false, closeCount := f.closeCount + 1)
  }

  /** Every close of the modal as written reports two closes to the parent. */
  lemma CloseEmitsTwiceAsWritten(f: Form)
    ensures ClosedAsWrittenIn(f).closeCount == f.closeCount + 2
    ensures ClosedAsWrittenIn(f).closeCount != ClosedIn(f).closeCount
  {
  }

  /**
   * As written, a choice such as `onOverwrite()` resolves once but closes
   * twice: one close more than the corrected choice, which agrees otherwise.
   */
  lemma ChoiceClosesTwiceAsWritten(f: Form, action: Action)
    ensures ChosenAsWrittenIn(f, action).closeCount == f.closeCount + 2
    ensures ChosenAsWrittenIn(f, action) == ChosenIn(f, action).(closeCount := ChosenIn(f, action).closeCount + 1)
  {
  }

  /** `onOverwrite()`, `onKeepExisting()` and `onCancel()`: emit the choice, then close. */
  function ChosenIn(f: Form, action: Action): Form {
    ClosedIn(f.(resolved := f.resolved + [ConflictResolution(action, None)]))
  }

  /** `onShowRename()`. */
  function ShowRenameIn(f: Form): Form {
    f.(showRenameInput := true, newName := RenameSuggestion(f.newName))
  }

  /** `onRename()`. */
  function RenamedIn(f: Form): Form {
    var trimmed := Trim(f.newName);
    if trimmed == "" then f
    else ClosedIn(f.(resolved := f.resolved + [ConflictResolution(Rename, Some(trimmed))]))
  }

  /** `handleFooterAction(action)`; an unknown action does nothing. */
  function FooterActionIn(f: Form, action: string): Form {
    if action == "overwrite" then ChosenIn(f, Overwrite)
    else if action == "keep-existing" then ChosenIn(f, KeepExisting)
    else if action == "rename" then ShowRenameIn(f)
    else if action == "back" then f.(showRenameInput := false)
    else if action == "confirm-rename" then RenamedIn(f)
    else f
  }

  /**
   * `onBackdropClick(event)`, told whether the click hit the backdrop
   * itself; closing is never prevented, since the modal is never processing.
   */
  function BackdropClickIn(f: Form, onBackdrop: bool): Form {
    if onBackdrop then ChosenIn(f, Cancel) else f
  }

  /**
   * Each choice emits exactly one resolution, for that choice and without a
   * name, and closes the modal once; the rename input is hidden afterwards.
   */
  lemma ChoiceResolvesOnce(f: Form, action: Action)
    requires action != Rename
    ensures var g := ChosenIn(f, action);
      |g.resolved| == |f.resolved| + 1 && g.resolved[..|f.resolved|] == f.resolved
      && g.resolved[|f.resolved|] == ConflictResolution(action, None)
      && g.closeCount == f.closeCount + 1 && !g.showRenameInput && g.newName == f.newName
  {
    assert ChosenIn(f, action).resolved[..|f.resolved|] == f.resolved;
  }

  /**
   * Renaming does nothing while the name is blank. Otherwise it emits one
   * `Rename` carrying the trimmed name, which is non-empty and has no
   * white space at either end, and closes the modal once.
   */
  lemma RenameRejectsBlank(f: Form)
    ensures AllSpace(f.newName) <==> RenamedIn(f) == f
    ensures !AllSpace(f.newName) ==>
      var g := RenamedIn(f);
      g.resolved == f.resolved + [ConflictResolution(Rename, Some(Trim(f.newName)))]
      && g.closeCount == f.closeCount + 1 && !g.showRenameInput
    ensures !AllSpace(f.newName) ==>
      var n := Trim(f.newName); n != [] && !IsSpace(n[0]) && !IsSpace(n[|n| - 1])
  {
    TrimEmptyIffAllSpace(f.newName);
    if !AllSpace(f.newName) {
      assert |RenamedIn(f).resolved| == |f.resolved| + 1;
    }
  }

  /**
   * The confirm button is disabled exactly when renaming would be refused:
   * a click on it emits `confirm-rename` just when the name is not blank,
   * and the footer action then emits the trimmed name.
   */
  lemma ConfirmButtonMatchesRename(f: Form)
    ensures var confirm := RenameButtons(f.newName)[1];
      OnButtonClick(confirm).Emitted? <==> !AllSpace(f.newName)
    ensures var confirm := RenameButtons(f.newName)[1];
      OnButtonClick(confirm).Emitted? ==>
        OnButtonClick(confirm).action == Some("confirm-rename")
        && FooterActionIn(f, "confirm-rename").resolved == f.resolved + [ConflictResolution(Rename, Some(Trim(f.newName)))]
  {
    TrimEmptyIffAllSpace(f.newName);
    RenameRejectsBlank(f);
  }

  /**
   * The three default buttons are always enabled, and each click leads to
   * its handler: overwrite and keep emit their choice, rename shows the
   * input with the suggested name.
   */
  lemma DefaultButtonsDispatch(f: Form)
    ensures forall k :: 0 <= k < |DefaultButtons| ==> OnButtonClick(DefaultButtons[k]) == Emitted(DefaultButtons[k].action)
    ensures FooterActionIn(f, DefaultButtons[0].action.value) == ChosenIn(f, Overwrite)
    ensures FooterActionIn(f, DefaultButtons[1].action.value) == ChosenIn(f, KeepExisting)
    ensures var g := FooterActionIn(f, DefaultButtons[2].action.value);
      g.showRenameInput && g.newName == RenameSuggestion(f.newName) && g.resolved == f.resolved
  {
  }

  /** Going back from the rename input keeps the edited name and emits nothing. */
  lemma BackKeepsName(f: Form)
    ensures var g := FooterActionIn(f, "back");
      !g.showRenameInput && g.newName == f.newName && g.resolved == f.resolved && g.closeCount == f.closeCount
  {
  }

  /** A click on the backdrop cancels; a click inside the dialog does nothing. */
  lemma BackdropCancels(f: Form)
    ensures BackdropClickIn(f, true).resolved == f.resolved + [ConflictResolution(Cancel, None)]
    ensures BackdropClickIn(f, true).closeCount == f.closeCount + 1
    ensures BackdropClickIn(f, false) == f
  {
  }

  class ConflictResolutionModalComponent {
    var isVisible: bool
    var existing: Option<Screenplay>
    var newFileName: string
    var newContent: Option<string>
    var showRenameInput: bool
    var newName: string
    var resolved: seq<ConflictResolution>
    var closeCount: nat

    constructor (isVisible: bool, existing: Option<Screenplay>, newFileName: string, newContent: Option<string>)
      ensures State() == Form(isVisible, existing, newFileName, newContent, false, "", [], 0)
    {
      this.isVisible := isVisible;
      this.existing := existing;
      this.newFileName := newFileName;
      this.newContent := newContent;
      showRenameInput := false;
      newName := "";
      resolved := [];
      closeCount := 0;
    }

    function State(): Form
      reads this
    {
      Form(isVisible, existing, newFileName, newContent, showRenameInput, newName, resolved, closeCount)
    }

    method NgOnInit()
      modifies this
      ensures State() == InitIn(old(State()))
    {
      if newFileName != "" {
        newName := newFileName;
      }
    }

    method OnClose()
      modifies this
      ensures State() == ClosedIn(old(State()))
    {
      showRenameInput := false;
      closeCount := closeCount + 1;
    }

    method Choose(action: Action)
      modifies this
      ensures State() == ChosenIn(old(State()), action)
    {
      resolved := resolved + [ConflictResolution(action, None)];
      OnClose();
    }

    method OnOverwrite()
      modifies this
      ensures State() == ChosenIn(old(State()), Overwrite)
    {
      Choose(Overwrite);
    }

    method OnKeepExisting()
      modifies this
      ensures State() == ChosenIn(old(State()), KeepExisting)
    {
      Choose(KeepExisting);
    }

    method OnCancel()
      modifies this
      ensures State() == ChosenIn(old(State()), Cancel)
    {
      Choose(Cancel);
    }

    method OnShowRename()
      modifies this
      ensures State() == ShowRenameIn(old(State()))
    {
      var suggestion := RenameSuggestion(newName);
      showRenameInput := true;
      newName := suggestion;
    }

    method OnRename()
      modifies this
      ensures State() == RenamedIn(old(State()))
    {
      var trimmed := Trim(newName);
      if trimmed == "" {
        return;
      }
      ghost var before := State();
      resolved := resolved + [ConflictResolution(Rename, Some(trimmed))];
      assert State() == before.(resolved := before.resolved + [ConflictResolution(Rename, Some(trimmed))]);
      OnClose();
    }

    method HandleFooterAction(action: string)
      modifies this
      ensures State() == FooterActionIn(old(State()), action)
    {
      if action == "overwrite" {
        OnOverwrite();
      } else if action == "keep-existing" {
        OnKeepExisting();
      } else if action == "rename" {
        OnShowRename();
      } else if action == "back" {
        showRenameInput := false;
      } else if action == "confirm-rename" {
        OnRename();
      }
    }

    method OnBackdropClick(onBackdrop: bool)
      modifies this
      ensures State() == BackdropClickIn(old(State()), onBackdrop)
    {
      if onBackdrop {
        OnCancel();
      }
    }
  }
}
