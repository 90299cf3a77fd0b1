/**
 * Persona editing for agent instances: the edited persona, a backup of the
 * original and a history of the last five edits, each kept in browser
 * storage under its own key prefix; plus the validation shown to the editor.
 */
module PersonaEdit {
  import opened Wrappers
  import opened JsText

  const MaxPersonaSize: nat := 10 * 1024
  const MaxHistorySize: nat := 5
  /** `MAX_PERSONA_SIZE * 0.8`, exactly 8192. */
  const NearLimitSize: nat := 8192
  const MinPersonaLength: nat := 50

  // ------------------------------------------------------------- validation

  /** The number of bytes UTF-8 needs for one character. */
  function Utf8Width(c: char): nat {
    if c as int < 0x80 then 1 else if c as int < 0x800 then 2 else if c as int < 0x10000 then 3 else 4
  }

  /** `new Blob([persona]).size`: the UTF-8 length. */
  function PersonaSize(persona: string): (n: nat)
    ensures n >= |persona|
    ensures n <= 4 * |persona|
  {
    if persona == [] then 0 else Utf8Width(persona[0]) + PersonaSize(persona[1..])
  }

  datatype ValidationState = ValidationState(isValid: bool, errors: seq<string>, warnings: seq<string>)

  /** `Math.round(size / 1024)` for a non-negative size. */
  function RoundKb(size: nat): nat {
    (size + 512) / 1024
  }

  /** `validatePersona(persona)`. */
  predicate ValidatePersona(persona: string) {
    !AllSpace(persona)
  }

  const NearLimitWarning := "Persona está próxima do limite de tamanho"
  const ShortWarning := "Persona muito curta. Considere adicionar mais detalhes"

  /** The warnings of `validatePersonaAdvanced` for a persona of `size` bytes and `length` characters. */
  function Warnings(size: nat, length: nat): seq<string> {
    (if size > NearLimitSize then [NearLimitWarning] else []) + (if length < MinPersonaLength then [ShortWarning] else [])
  }

  /** `validatePersonaAdvanced(persona)`. */
  function ValidateAdvanced(persona: string): ValidationState {
    if |Trim(persona)| == 0 then ValidationState(false, ["Persona não pode estar vazia"], [])
    else
      var size := PersonaSize(persona);
      var errors :=
        if size > MaxPersonaSize
        then ["Persona muito grande (" + NatToString(RoundKb(size)) + "KB). Máximo: 10KB"] else [];
      ValidationState(|errors| == 0, errors, Warnings(size, |persona|))
  }

  /** A blank persona gets exactly one error and no warning. */
  lemma BlankPersonaOneError(persona: string)
    requires AllSpace(persona)
    ensures ValidateAdvanced(persona) == ValidationState(false, ["Persona não pode estar vazia"], [])
    ensures !ValidatePersona(persona)
  {
    TrimEmptyIffAllSpace(persona);
  }

  /** A non-blank persona is valid exactly when it fits in 10 KB, with at most one error. */
  lemma AdvancedValidityFacts(persona: string)
    ensures ValidateAdvanced(persona).isValid <==> ValidateAdvanced(persona).errors == []
    ensures ValidateAdvanced(persona).isValid <==> !AllSpace(persona) && PersonaSize(persona) <= MaxPersonaSize
    ensures |ValidateAdvanced(persona).errors| <= 1
    ensures |persona| > MaxPersonaSize ==> !ValidateAdvanced(persona).isValid
  {
    TrimEmptyIffAllSpace(persona);
  }

  /** Past 8 KB the persona is warned about its size, under 50 characters about its length, in that order. */
  lemma WarningsFacts(size: nat, length: nat)
    ensures NearLimitWarning in Warnings(size, length) <==> size > NearLimitSize
    ensures ShortWarning in Warnings(size, length) <==> length < MinPersonaLength
    ensures |Warnings(size, length)| <= 2
    ensures size > NearLimitSize ==> Warnings(size, length)[0] == NearLimitWarning
  {
    assert |NearLimitWarning| != |ShortWarning|;
  }

  /** A non-blank persona gets the warnings of its size and length. */
  lemma AdvancedWarningFacts(persona: string)
    requires !AllSpace(persona)
    ensures ValidateAdvanced(persona).warnings == Warnings(PersonaSize(persona), |persona|)
  {
    TrimEmptyIffAllSpace(persona);
  }

  // ---------------------------------------------------------------- storage

  /**
   * What browser storage holds for persona editing: the three key prefixes
   * `persona-edit-`, `persona-original-` and `persona-history-` never
   * collide, so each is a map by instance id; a history is the parsed JSON
   * array, a value that does not parse reads as empty.
   */
  datatype Store = Store(edited: map<string, string>, original: map<string, string>, history: map<string, seq<string>>)

  const EmptyStore := Store(map[], map[], map[])

  /** `savePersona(instanceId, persona)`: nothing happens when either is empty. */
  function AfterSavePersona(st: Store, instanceId: string, persona: string): Store {
    if instanceId == "" || persona == "" then st else st.(edited := st.edited[instanceId := persona])
  }

  /** `loadPersona(instanceId)`: a stored, non-empty persona. */
  function LoadPersona(st: Store, instanceId: string): Option<string> {
    if instanceId != "" && instanceId in st.edited && st.edited[instanceId] != "" then Some(st.edited[instanceId]) else None
  }

  /** `clearPersona(instanceId)`. */
  function AfterClearPersona(st: Store, instanceId: string): Store {
    if instanceId == "" then st else st.(edited := st.edited - {instanceId})
  }

  /** `hasEditedPersona(instanceId)`: a stored persona that is not blank. */
  predicate HasEditedPersona(st: Store, instanceId: string) {
    instanceId != "" && instanceId in st.edited && |Trim(st.edited[instanceId])| > 0
  }

  /** `saveOriginalPersona(instanceId, originalPersona)`. */
  function AfterSaveOriginal(st: Store, instanceId: string, originalPersona: string): Store {
    if instanceId == "" || originalPersona == "" then st else st.(original := st.original[instanceId := originalPersona])
  }

  /** `getOriginalPersona(instanceId)`. */
  function GetOriginal(st: Store, instanceId: string): Option<string> {
    if instanceId != "" && instanceId in st.original then Some(st.original[instanceId]) else None
  }

  /** `restoreOriginalPersona(instanceId)`: the backup, when there is a non-empty one, saved as the edit. */
  function AfterRestoreOriginal(st: Store, instanceId: string): Store {
    var o := GetOriginal(st, instanceId);
    if instanceId == "" || !Truthy(o) then st else AfterSavePersona(st, instanceId, o.value)
  }

  /** `getEditHistory(instanceId)`. */
  function EditHistory(st: Store, instanceId: string): seq<string> {
    if instanceId != "" && instanceId in st.history then st.history[instanceId] else []
  }

  /** The history after `unshift(persona)` and `slice(0, 5)`. */
  function Prepended(history: seq<string>, persona: string): (r: seq<string>)
    ensures |r| <= MaxHistorySize || |r| == |history| + 1
  {
    var h := [persona] + history;
    if |h| > MaxHistorySize then h[..MaxHistorySize] else h
  }

  /** `addToHistory(instanceId, persona)`. */
  function AfterAddToHistory(st: Store, instanceId: string, persona: string): Store {
    if instanceId == "" || persona == "" then st
    else st.(history := st.history[instanceId := Prepended(EditHistory(st, instanceId), persona)])
  }

  /** `savePersonaWithHistory(instanceId, persona)`. */
  function AfterSaveWithHistory(st: Store, instanceId: string, persona: string): Store {
    if instanceId == "" || persona == "" then st
    else AfterAddToHistory(AfterSavePersona(st, instanceId, persona), instanceId, persona)
  }

  /** `clearHistory(instanceId)`. */
  function AfterClearHistory(st: Store, instanceId: string): Store {
    if instanceId == "" then st else st.(history := st.history - {instanceId})
  }

  /** `clearAllData(instanceId)`. */
  function AfterClearAll(st: Store, instanceId: string): Store {
    if instanceId == "" then st
    else
      var s := AfterClearHistory(AfterClearPersona(st, instanceId), instanceId);
      s.(original := s.original - {instanceId})
  }

  /** A well-formed history: never longer than five entries, as `addToHistory` writes it. */
  predicate HistoriesBounded(st: Store) {
    forall id :: id in st.history ==> |st.history[id]| <= MaxHistorySize
  }

  // ----------------------------------------------------------------- lemmas

  /** A saved persona loads back and counts as edited when it is not blank; no other instance changes. */
  lemma SaveThenLoad(st: Store, instanceId: string, persona: string, other: string)
    requires instanceId != "" && persona != ""
    ensures LoadPersona(AfterSavePersona(st, instanceId, persona), instanceId) == Some(persona)
    ensures HasEditedPersona(AfterSavePersona(st, instanceId, persona), instanceId) <==> !AllSpace(persona)
    ensures other != instanceId ==>
      LoadPersona(AfterSavePersona(st, instanceId, persona), other) == LoadPersona(st, other)
  {
    TrimEmptyIffAllSpace(persona);
  }

  /** An empty id or persona is refused and changes nothing. */
  lemma InvalidSaveIsIgnored(st: Store, instanceId: string, persona: string)
    requires instanceId == "" || persona == ""
    ensures AfterSavePersona(st, instanceId, persona) == st
    ensures AfterSaveWithHistory(st, instanceId, persona) == st
    ensures LoadPersona(st, "") == None && !HasEditedPersona(st, "")
  {
  }

  /** After clearing, the persona is gone. */
  lemma ClearThenLoad(st: Store, instanceId: string)
    ensures LoadPersona(AfterClearPersona(st, instanceId), instanceId) == None
    ensures !HasEditedPersona(AfterClearPersona(st, instanceId), instanceId)
  {
  }

  /** Restoring after backing up makes the backup the edited persona. */
  lemma BackupThenRestore(st: Store, instanceId: string, originalPersona: string)
    requires instanceId != "" && originalPersona != ""
    ensures var s := AfterRestoreOriginal(AfterSaveOriginal(st, instanceId, originalPersona), instanceId);
      LoadPersona(s, instanceId) == Some(originalPersona) && GetOriginal(s, instanceId) == Some(originalPersona)
  {
  }

  /** The newest edit comes first, the older ones follow in order, and at most five are kept. */
  lemma PrependedFacts(history: seq<string>, persona: string)
    ensures var r := Prepended(history, persona);
      |r| == (if |history| + 1 < MaxHistorySize then |history| + 1 else MaxHistorySize)
      && r[0] == persona
      && r[1..] == history[..|r| - 1]
  {
  }

  /** Saving with history keeps every history at most five long, and the last save is its head. */
  lemma SaveWithHistoryFacts(st: Store, instanceId: string, persona: string)
    requires HistoriesBounded(st)
    requires instanceId != "" && persona != ""
    ensures var s := AfterSaveWithHistory(st, instanceId, persona);
      HistoriesBounded(s) && EditHistory(s, instanceId)[0] == persona
      && LoadPersona(s, instanceId) == Some(persona)
      && EditHistory(s, instanceId)[1..] == EditHistory(st, instanceId)[..|EditHistory(s, instanceId)| - 1]
  {
    PrependedFacts(EditHistory(st, instanceId), persona);
  }

  /** Clearing all data leaves no persona, no backup and an empty history for that instance. */
  lemma ClearAllFacts(st: Store, instanceId: string)
    requires instanceId != ""
    ensures var s := AfterClearAll(st, instanceId);
      LoadPersona(s, instanceId) == None && GetOriginal(s, instanceId) == None && EditHistory(s, instanceId) == []
  {
  }

  // ------------------------------------------------------------------ class

  class PersonaEditService {
    var store: Store

    predicate Valid()
      reads this
    {
      HistoriesBounded(store)
    }

    constructor (stored: Store)
      requires HistoriesBounded(stored)
      ensures store == stored && Valid()
    {
      store := stored;
    }

    method SavePersona(instanceId: string, persona: string)
      modifies this
      ensures store == AfterSavePersona(old(store), instanceId, persona)
    {
      if instanceId == "" || persona == "" {
        return;
      }
      store := store.(edited := store.edited[instanceId := persona]);
    }

    function Load(instanceId: string): (r: Option<string>)
      reads this
      ensures r.Some? <==> instanceId != "" && instanceId in store.edited && store.edited[instanceId] != ""
      ensures r.Some? ==> r.value == store.edited[instanceId]
    {
      LoadPersona(store, instanceId)
    }

    method ClearPersona(instanceId: string)
      modifies this
      ensures store == AfterClearPersona(old(store), instanceId)
    {
      if instanceId == "" {
        return;
      }
      store := store.(edited := store.edited - {instanceId});
    }

    method SaveOriginalPersona(instanceId: string, originalPersona: string)
      modifies this
      ensures store == AfterSaveOriginal(old(store), instanceId, originalPersona)
    {
      if instanceId == "" || originalPersona == "" {
        return;
      }
      store := store.(original := store.original[instanceId := originalPersona]);
    }

    method RestoreOriginalPersona(instanceId: string)
      modifies this
      ensures store == AfterRestoreOriginal(old(store), instanceId)
    {
      if instanceId == "" {
        return;
      }
      var o := GetOriginal(store, instanceId);
      if Truthy(o) {
        SavePersona(instanceId, o.value);
      }
    }

    method AddToHistory(instanceId: string, persona: string)
      requires Valid()
      modifies this
      ensures Valid() && store == AfterAddToHistory(old(store), instanceId, persona)
    {
      if instanceId == "" || persona == "" {
        return;
      }
      var history := [persona] + EditHistory(store, instanceId);
      var trimmed := if |history| > MaxHistorySize then history[..MaxHistorySize] else history;
      store := store.(history := store.history[instanceId := trimmed]);
    }

    method SavePersonaWithHistory(instanceId: string, persona: string)
      requires Valid()
      modifies this
      ensures Valid() && store == AfterSaveWithHistory(old(store), instanceId, persona)
    {
      if instanceId == "" || persona == "" {
        return;
      }
      SavePersona(instanceId, persona);
      AddToHistory(instanceId, persona);
    }

    method ClearHistory(instanceId: string)
      modifies this
      ensures store == AfterClearHistory(old(store), instanceId)
    {
      if instanceId == "" {
        return;
      }
      store := store.(history := store.history - {instanceId});
    }

    method ClearAllData(instanceId: string)
      modifies this
      ensures store == AfterClearAll(old(store), instanceId)
    {
      if instanceId == "" {
        return;
      }
      ClearPersona(instanceId);
      ClearHistory(instanceId);
      store := store.(original := store.original - {instanceId});
    }
  }
}
