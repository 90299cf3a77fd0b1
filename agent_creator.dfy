/**
 * The agent creation form: the name is cleaned as it is typed and saved with
 * an `_Agent` suffix, tags are normalised and kept unique (at most ten), MCP
 * sidecars are toggled in and out of a selection, and the form may be
 * submitted only when name, description and persona all pass their checks.
 */
module AgentCreator {
  import opened Wrappers
  import opened JsText
  import opened SeqSet
  import Sorting
  import Arrays

  const MaxTags: nat := 10
  const DefaultEmoji: string := "\U{1F916}"

  /** The characters `[a-zA-Z0-9_]` matches. */
  predicate IsNameChar(c: char) { IsAsciiLetter(c) || IsDigit(c) || c == '_' }

  /** The characters `[a-z0-9-]` matches. */
  predicate IsTagChar(c: char) { 'a' <= c <= 'z' || IsDigit(c) || c == '-' }

  /** The characters of `s` that satisfy `p`, in order: `replace(/[^...]/g, '')`. */
  function Keep(s: string, p: char -> bool): (r: string)
    ensures |r| <= |s|
    ensures forall i :: 0 <= i < |r| ==> p(r[i])
    ensures forall c :: c in r ==> c in s
  {
    if s == [] then [] else (if p(s[0]) then [s[0]] else []) + Keep(s[1..], p)
  }

  /** Text that only has characters satisfying `p` is kept as it is. */
  lemma {:induction false} KeepAll(s: string, p: char -> bool)
    requires forall i :: 0 <= i < |s| ==> p(s[i])
    ensures Keep(s, p) == s
  {
    if s != [] {
      assert forall i :: 0 <= i < |s[1..]| ==> p(s[1..][i]) by {
        forall i | 0 <= i < |s[1..]| ensures p(s[1..][i]) {
          assert s[1..][i] == s[i + 1];
        }
      }
      KeepAll(s[1..], p);
    }
  }

  // -------------------------------------------------------------------- name

  /** `onNameInput()`: every character outside `[a-zA-Z0-9_]` dropped. */
  function CleanName(name: string): string {
    Keep(name, IsNameChar)
  }

  /** `isNameValid()`: at least two characters matching `^[A-Za-z][A-Za-z0-9_]*$`. */
  predicate NameValid(name: string) {
    |name| >= 2 && IsAsciiLetter(name[0]) && forall i :: 0 <= i < |name| ==> IsNameChar(name[i])
  }

  /** `getFullAgentName()`. */
  function FullAgentName(name: string): string {
    if name == "" then "Nome_Agent" else name + "_Agent"
  }

  /** `getNameValidationMessage()`. */
  function NameValidationMessage(name: string): string {
    if name == "" then "Nome sem espaços, será sufixado com _Agent"
    else if |name| < 2 then "Mínimo 2 caracteres"
    else if !IsAsciiLetter(name[0]) then "Deve começar com letra"
    else "Será salvo como: " + FullAgentName(name)
  }

  /** A cleaned name holds only `[a-zA-Z0-9_]`, and cleaning it again changes nothing. */
  lemma CleanNameFacts(name: string)
    ensures forall i :: 0 <= i < |CleanName(name)| ==> IsNameChar(CleanName(name)[i])
    ensures CleanName(CleanName(name)) == CleanName(name)
  {
    KeepAll(CleanName(name), IsNameChar);
  }

  /**
   * On a cleaned name the message announces the saved name exactly when the
   * name is valid, and the saved name always ends in `_Agent`.
   */
  lemma NameMessageAgreesWithValidity(typed: string)
    ensures var name := CleanName(typed);
      NameValid(name) <==> StartsWith(NameValidationMessage(name), "Será salvo como: ")
    ensures var name := CleanName(typed);
      NameValid(name) ==> NameValidationMessage(name) == "Será salvo como: " + name + "_Agent"
    ensures EndsWith(FullAgentName(typed), "_Agent")
  {
    var name := CleanName(typed);
    var m := NameValidationMessage(name);
    var prefix := "Será salvo como: ";
    assert prefix[0] == 'S' && prefix[1] == 'e';
    if name == "" {
      assert m == "Nome sem espaços, será sufixado com _Agent";
      assert m[0] == 'N';
    } else if |name| < 2 {
      assert m == "Mínimo 2 caracteres";
      assert m[0] == 'M';
    } else if !IsAsciiLetter(name[0]) {
      assert m == "Deve começar com letra";
      assert m[0] == 'D';
    } else {
      assert m == prefix + (name + "_Agent");
    }
    var f := FullAgentName(typed);
    assert f[|f| - 6..] == "_Agent";
  }

  // ------------------------------------------------------------- description

  /** `isDescriptionValid()`: 10 to 200 characters once trimmed. */
  predicate DescriptionValid(description: string) {
    10 <= |Trim(description)| <= 200
  }

  /** `getDescriptionValidationMessage()`. */
  function DescriptionValidationMessage(description: string): string {
    var len := |Trim(description)|;
    if len == 0 then "10-200 caracteres"
    else if len < 10 then "Faltam " + IntToString(10 - len) + " caracteres"
    else "\U{2713} Válido"
  }

  /**
   * The description message reads valid from ten characters on; past 200
   * characters it still reads valid although the check fails.
   */
  lemma DescriptionMessageFacts(description: string)
    ensures DescriptionValid(description) ==> DescriptionValidationMessage(description) == "\U{2713} Válido"
    ensures 0 < |Trim(description)| < 10 ==>
      DescriptionValidationMessage(description) == "Faltam " + IntToString(10 - |Trim(description)|) + " caracteres"
    ensures |Trim(description)| > 200 ==>
      !DescriptionValid(description) && DescriptionValidationMessage(description) == "\U{2713} Válido"
  {
  }

  // ----------------------------------------------------------------- persona

  /** `isPersonaValid()`: at least 50 characters once trimmed, starting with `#`. */
  predicate PersonaValid(persona: string) {
    var content := Trim(persona);
    |content| >= 50 && StartsWith(content, "#")
  }

  /** `getPersonaValidationMessage()`. */
  function PersonaValidationMessage(persona: string): string {
    var content := Trim(persona);
    if |content| == 0 then "Deve começar com # (Markdown) e ter mín 50 chars"
    else if !StartsWith(content, "#") then "Deve começar com um cabeçalho Markdown (#)"
    else if |content| < 50 then "Faltam " + IntToString(50 - |content|) + " caracteres"
    else "\U{2713} Válido"
  }

  /** The persona message reads valid exactly when the persona check passes. */
  lemma PersonaMessageAgrees(persona: string)
    ensures PersonaValid(persona) <==> PersonaValidationMessage(persona) == "\U{2713} Válido"
  {
    var content := Trim(persona);
    var m := PersonaValidationMessage(persona);
    if |content| == 0 {
      assert |m| != |"\U{2713} Válido"|;
    } else if !StartsWith(content, "#") {
      assert m == "Deve começar com um cabeçalho Markdown (#)";
      assert m[0] == 'D';
    } else if |content| < 50 {
      assert m == "Faltam " + IntToString(50 - |content|) + " caracteres";
      assert m[0] == 'F';
    }
  }

  // -------------------------------------------------------------------- tags

  /** `newTag.trim().toLowerCase().replace(/[^a-z0-9-]/g, '')`. */
  function NormalizeTag(newTag: string): string {
    Keep(ToLower(Trim(newTag)), IsTagChar)
  }

  predicate IsNormalTag(tag: string) {
    tag != "" && forall i :: 0 <= i < |tag| ==> IsTagChar(tag[i])
  }

  predicate TagsOk(tags: seq<string>) {
    |tags| <= MaxTags && Distinct(tags) && forall k :: 0 <= k < |tags| ==> IsNormalTag(tags[k])
  }

  /** `addTag()`: the tag list and the tag input afterwards. */
  function AfterAddTag(tags: seq<string>, newTag: string): (seq<string>, string) {
    var tag := NormalizeTag(newTag);
    if tag != "" && tag !in tags && |tags| < MaxTags then (tags + [tag], "") else (tags, newTag)
  }

  /**
   * A tag is added exactly when it normalises to something new and there is
   * room; the list stays unique, normalised and at most ten long.
   */
  lemma AddTagFacts(tags: seq<string>, newTag: string)
    requires TagsOk(tags)
    ensures TagsOk(AfterAddTag(tags, newTag).0)
    ensures var tag := NormalizeTag(newTag);
      (AfterAddTag(tags, newTag).0 == tags + [tag]) <==> (tag != "" && tag !in tags && |tags| < MaxTags)
    ensures var tag := NormalizeTag(newTag);
      !(tag != "" && tag !in tags && |tags| < MaxTags) ==> AfterAddTag(tags, newTag) == (tags, newTag)
  {
    var tag := NormalizeTag(newTag);
    var r := AfterAddTag(tags, newTag).0;
    if tag != "" && tag !in tags && |tags| < MaxTags {
      forall i, j | 0 <= i < j < |r| ensures r[i] != r[j] {
        if j == |tags| {
          assert r[i] == tags[i];
        }
      }
    } else {
      assert |tags + [tag]| != |tags|;
    }
  }

  /** `array.splice(index, 1)`: the start counted from the end when negative, clamped to the length. */
  function SpliceOne<T>(s: seq<T>, index: int): (r: seq<T>)
    ensures |r| == |s| || |r| == |s| - 1
  {
    var start := SpliceStart(|s|, index);
    if start < |s| then s[..start] + s[start + 1..] else s
  }

  /** Where `splice(index, …)` starts on an array of length `len`. */
  function SpliceStart(len: nat, index: int): (start: nat)
    ensures start <= len && (0 <= index <= len ==> start == index)
  {
    if index < 0 then (if len + index < 0 then 0 else len + index) else (if index > len then len else index)
  }

  /** `removeTag(index)` keeps the tag list unique and normalised; a valid index drops exactly that tag. */
  lemma RemoveTagFacts(tags: seq<string>, index: int)
    requires TagsOk(tags)
    ensures TagsOk(SpliceOne(tags, index))
    ensures 0 <= index < |tags| ==> SpliceOne(tags, index) == tags[..index] + tags[index + 1..]
    ensures 0 <= index < |tags| ==> tags[index] !in SpliceOne(tags, index)
  {
    var r := SpliceOne(tags, index);
    if |r| < |tags| {
      var start := SpliceStart(|tags|, index);
      forall i | 0 <= i < |r| ensures r[i] == tags[if i < start then i else i + 1] {
        if i < start {
          assert r[i] == tags[..start][i];
        } else {
          assert r[i] == tags[start + 1..][i - start];
        }
      }
      if 0 <= index < |tags| {
        forall i | 0 <= i < |r| ensures r[i] != tags[index] {
          assert r[i] == tags[if i < start then i else i + 1];
        }
      }
    }
  }

  // ---------------------------------------------------------------- sidecars

  /** `array.splice(array.indexOf(x), 1)` for a member: the first occurrence removed. */
  function RemoveFirst(s: seq<string>, x: string): (r: seq<string>)
    ensures x !in s ==> r == s
    ensures forall y :: y in r ==> y in s
  {
    if s == [] then [] else if s[0] == x then s[1..] else [s[0]] + RemoveFirst(s[1..], x)
  }

  /** `toggleSidecar(sidecar)`. */
  function AfterToggleSidecar(selected: seq<string>, sidecar: string): seq<string> {
    if sidecar in selected then RemoveFirst(selected, sidecar) else selected + [sidecar]
  }

  lemma {:induction false} RemoveFirstOfDistinct(s: seq<string>, x: string)
    requires Distinct(s)
    ensures Distinct(RemoveFirst(s, x))
    ensures forall y :: y in RemoveFirst(s, x) <==> y in s && y != x
  {
    if s != [] {
      assert Distinct(s[1..]) by {
        forall i, j | 0 <= i < j < |s[1..]| ensures s[1..][i] != s[1..][j] {
          assert s[1..][i] == s[i + 1] && s[1..][j] == s[j + 1];
        }
      }
      assert s[0] !in s[1..] by {
        forall k | 0 <= k < |s[1..]| ensures s[1..][k] != s[0] {
          assert s[1..][k] == s[k + 1];
        }
      }
      if s[0] != x {
        RemoveFirstOfDistinct(s[1..], x);
        var rest := RemoveFirst(s[1..], x);
        var r := [s[0]] + rest;
        forall i, j | 0 <= i < j < |r| ensures r[i] != r[j] {
          assert r[j] == rest[j - 1] && r[j] in rest;
          if i > 0 {
            assert r[i] == rest[i - 1];
          }
        }
      }
    }
  }

  /** Toggling keeps the selection free of repeats and flips exactly that sidecar. */
  lemma ToggleSidecarFacts(selected: seq<string>, sidecar: string)
    requires Distinct(selected)
    ensures var r := AfterToggleSidecar(selected, sidecar);
      Distinct(r) && (sidecar in r <==> sidecar !in selected)
      && forall y :: y != sidecar ==> (y in r <==> y in selected)
  {
    RemoveFirstOfDistinct(selected, sidecar);
    if sidecar !in selected {
      var r := selected + [sidecar];
      forall i, j | 0 <= i < j < |r| ensures r[i] != r[j] {
        if j == |selected| {
          assert r[i] == selected[i];
        }
      }
    }
  }

  /** Toggling twice restores every membership; a sidecar that was not selected leaves the list as it was. */
  lemma ToggleSidecarTwice(selected: seq<string>, sidecar: string)
    requires Distinct(selected)
    ensures forall y :: y in AfterToggleSidecar(AfterToggleSidecar(selected, sidecar), sidecar) <==> y in selected
    ensures sidecar !in selected ==> AfterToggleSidecar(AfterToggleSidecar(selected, sidecar), sidecar) == selected
  {
    ToggleSidecarFacts(selected, sidecar);
    ToggleSidecarFacts(AfterToggleSidecar(selected, sidecar), sidecar);
    if sidecar !in selected {
      RemoveAppended(selected, sidecar);
    }
  }

  lemma {:induction false} RemoveAppended(s: seq<string>, x: string)
    requires x !in s
    ensures RemoveFirst(s + [x], x) == s
  {
    if s != [] {
      assert (s + [x])[1..] == s[1..] + [x];
      RemoveAppended(s[1..], x);
    }
  }

  /** `formatSidecarName(name)`. */
  function FormatSidecarName(name: string): string {
    if |name| > 25 then Substring(name, 0, 22) + "..." else name
  }

  /** A displayed sidecar name is at most 25 characters, and a short name is shown whole. */
  lemma FormatSidecarNameFacts(name: string)
    ensures |FormatSidecarName(name)| <= 25
    ensures |name| <= 25 ==> FormatSidecarName(name) == name
    ensures |name| > 25 ==> FormatSidecarName(name) == name[..22] + "..."
  {
  }

  /** `filterSidecars()`: the available sidecars whose lower-cased name includes the lower-cased filter. */
  function FilterSidecars(available: seq<string>, filter: string): (r: seq<string>)
    ensures |r| <= |available|
    ensures forall s :: s in r <==> s in available && Includes(ToLower(s), ToLower(filter))
  {
    if available == [] then []
    else
      (if Includes(ToLower(available[0]), ToLower(filter)) then [available[0]] else [])
      + FilterSidecars(available[1..], filter)
  }

  /** The filter predicate of `filterSidecars()`. */
  function MatchesFilter(filter: string): string -> bool {
    (s: string) => Includes(ToLower(s), ToLower(filter))
  }

  /** The listed sidecars keep the order of the available ones: it is the array filter. */
  lemma {:induction false} FilterSidecarsIsFilter(available: seq<string>, filter: string)
    ensures FilterSidecars(available, filter) == Arrays.Filter(available, MatchesFilter(filter))
  {
    if available != [] {
      FilterSidecarsIsFilter(available[1..], filter);
    }
  }

  /** An empty filter lists every available sidecar. */
  lemma {:induction false} EmptyFilterKeepsAll(available: seq<string>)
    ensures FilterSidecars(available, "") == available
  {
    if available != [] {
      IncludesEmpty(ToLower(available[0]));
      EmptyFilterKeepsAll(available[1..]);
    }
  }

  // ------------------------------------------------------------------- form

  /** `isValid()`. */
  predicate FormValid(name: string, description: string, persona: string) {
    NameValid(name) && DescriptionValid(description) && PersonaValid(persona)
  }

  function Join(parts: seq<string>, sep: string): string {
    if parts == [] then "" else if |parts| == 1 then parts[0] else parts[0] + sep + Join(parts[1..], sep)
  }

  /** The names of the failing checks, in form order. */
  function Issues(name: string, description: string, persona: string): seq<string> {
    (if !NameValid(name) then ["nome"] else [])
    + (if !DescriptionValid(description) then ["descrição"] else [])
    + (if !PersonaValid(persona) then ["persona"] else [])
  }

  /** `getValidationSummary()`. */
  function ValidationSummary(name: string, description: string, persona: string): string {
    "Preencha: " + Join(Issues(name, description, persona), ", ")
  }

  /** The form is valid exactly when no check is listed as failing. */
  lemma FormValidIffNoIssues(name: string, description: string, persona: string)
    ensures FormValid(name, description, persona) <==> Issues(name, description, persona) == []
    ensures FormValid(name, description, persona) ==> ValidationSummary(name, description, persona) == "Preencha: "
  {
  }

  /** `getSelectedEmoji()`. */
  function SelectedEmoji(customEmoji: string, selectedEmoji: string): string {
    if customEmoji != "" then customEmoji else if selectedEmoji != "" then selectedEmoji else DefaultEmoji
  }

  datatype AgentCreationData = AgentCreationData(
    emoji: string, name: string, description: string, tags: seq<string>,
    personaContent: string, mcpConfigs: seq<string>)

  /** Every field of the creator form, as one value. */
  datatype FormState = FormState(
    selectedEmoji: string, customEmoji: string, agentName: string, agentDescription: string,
    tags: seq<string>, newTag: string, personaContent: string,
    availableSidecars: seq<string>, filteredSidecars: seq<string>, selectedSidecars: seq<string>,
    sidecarFilter: string)

  class AgentCreatorForm {
    var selectedEmoji: string
    var customEmoji: string
    var agentName: string
    var agentDescription: string
    var tags: seq<string>
    var newTag: string
    var personaContent: string
    var availableSidecars: seq<string>
    var filteredSidecars: seq<string>
    var selectedSidecars: seq<string>
    var sidecarFilter: string

    function State(): FormState
      reads this
    {
      FormState(selectedEmoji, customEmoji, agentName, agentDescription, tags, newTag, personaContent,
                availableSidecars, filteredSidecars, selectedSidecars, sidecarFilter)
    }

    /** Tags stay unique, normalised and at most ten; the sidecar selection has no repeats. */
    predicate Valid()
      reads this
    {
      TagsOk(tags) && Distinct(selectedSidecars)
    }

    /** The form as `resetForm()` leaves it, with the sidecars already loaded (`loadSidecars()`). */
    predicate IsReset()
      reads this
    {
      selectedEmoji == DefaultEmoji && customEmoji == "" && agentName == "" && agentDescription == ""
      && tags == [] && newTag == "" && personaContent == "" && selectedSidecars == [] && sidecarFilter == ""
      && filteredSidecars == availableSidecars
    }

    constructor (sidecars: seq<string>)
      ensures IsReset() && Valid()
      ensures multiset(availableSidecars) == multiset(sidecars) && Sorting.TextSorted(availableSidecars)
    {
      availableSidecars := Sorting.SortTexts(sidecars);
      selectedEmoji := DefaultEmoji;
      customEmoji := "";
      agentName := "";
      agentDescription := "";
      tags := [];
      newTag := "";
      personaContent := "";
      filteredSidecars := availableSidecars;
      selectedSidecars := [];
      sidecarFilter := "";
    }

    method SelectEmoji(emoji: string)
      modifies this
      ensures State() == old(State()).(selectedEmoji := emoji, customEmoji := "")
    {
      selectedEmoji := emoji;
      customEmoji := "";
    }

    method OnCustomEmojiInput()
      modifies this
      ensures State() == old(State()).(selectedEmoji := if old(customEmoji) != "" then "" else old(selectedEmoji))
    {
      if customEmoji != "" {
        selectedEmoji := "";
      }
    }

    method OnNameInput()
      modifies this
      ensures State() == old(State()).(agentName := CleanName(old(agentName)))
    {
      agentName := CleanName(agentName);
    }

    method AddTag()
      requires Valid()
      modifies this
      ensures Valid()
      ensures (tags, newTag) == AfterAddTag(old(tags), old(newTag))
      ensures State() == old(State()).(tags := tags, newTag := newTag)
    {
      AddTagFacts(tags, newTag);
      var tag := NormalizeTag(newTag);
      if tag != "" && tag !in tags && |tags| < MaxTags {
        tags := tags + [tag];
        newTag := "";
      }
    }

    method RemoveTag(index: int)
      requires Valid()
      modifies this
      ensures Valid()
      ensures State() == old(State()).(tags := SpliceOne(old(tags), index))
    {
      RemoveTagFacts(tags, index);
      tags := SpliceOne(tags, index);
    }

    method FilterSidecarList()
      modifies this
      ensures State() == old(State()).(filteredSidecars := FilterSidecars(old(availableSidecars), old(sidecarFilter)))
    {
      filteredSidecars := FilterSidecars(availableSidecars, sidecarFilter);
    }

    method ToggleSidecar(sidecar: string)
      requires Valid()
      modifies this
      ensures Valid()
      ensures State() == old(State()).(selectedSidecars := AfterToggleSidecar(old(selectedSidecars), sidecar))
    {
      ToggleSidecarFacts(selectedSidecars, sidecar);
      selectedSidecars := AfterToggleSidecar(selectedSidecars, sidecar);
    }

    function IsSidecarSelected(sidecar: string): bool
      reads this
    {
      sidecar in selectedSidecars
    }

    method ResetForm()
      modifies this
      ensures IsReset() && Valid() && availableSidecars == old(availableSidecars)
    {
      selectedEmoji := DefaultEmoji;
      customEmoji := "";
      agentName := "";
      agentDescription := "";
      tags := [];
      newTag := "";
      personaContent := "";
      selectedSidecars := [];
      sidecarFilter := "";
      filteredSidecars := availableSidecars;
    }

    /** `onClose()`: the close event is emitted and the form reset. */
    method OnClose()
      modifies this
      ensures IsReset() && Valid() && availableSidecars == old(availableSidecars)
    {
      ResetForm();
    }

    /** `onBackdropClick()`: closes like `onClose()`. */
    method OnBackdropClick()
      modifies this
      ensures IsReset() && Valid() && availableSidecars == old(availableSidecars)
    {
      OnClose();
    }

    /** `onCreate()`: when the form is valid, the data to emit, and the form reset. */
    method OnCreate() returns (created: Option<AgentCreationData>)
      modifies this
      ensures created.Some? <==> FormValid(old(agentName), old(agentDescription), old(personaContent))
      ensures created.Some? ==> created.value == AgentCreationData(
        SelectedEmoji(old(customEmoji), old(selectedEmoji)), FullAgentName(old(agentName)),
        Trim(old(agentDescription)), old(tags), Trim(old(personaContent)), old(selectedSidecars))
      ensures created.Some? ==> IsReset() && availableSidecars == old(availableSidecars)
      ensures created.None? ==> unchanged(this)
    {
      if FormValid(agentName, agentDescription, personaContent) {
        created := Some(AgentCreationData(SelectedEmoji(customEmoji, selectedEmoji), FullAgentName(agentName),
                                          Trim(agentDescription), tags, Trim(personaContent), selectedSidecars));
        ResetForm();
      } else {
        created := None;
      }
    }
  }
}
