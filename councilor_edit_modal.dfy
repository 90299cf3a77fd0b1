/**
 * The modal that edits a councilor's configuration: it loads the form from
 * the configuration, validates title, task name, prompt and interval in that
 * order, emits the trimmed update, and takes its busy flag and error from the
 * parent.
 */
module CouncilorEditModal {
  import opened Wrappers
  import opened JsText
  import CouncilorScheduler

  /** `councilor_config` as read with optional chaining: any part may be missing. */
  datatype TaskConfig = TaskConfig(name: Option<string>, prompt: Option<string>, contextFiles: Option<seq<string>>)
  datatype ScheduleConfig = ScheduleConfig(value: Option<string>, enabled: Option<bool>)
  datatype NotificationConfig = NotificationConfig(onSuccess: Option<bool>, onWarning: Option<bool>,
                                                   onError: Option<bool>, channels: Option<seq<string>>)
  datatype CouncilorConfig = CouncilorConfig(title: Option<string>, task: Option<TaskConfig>,
                                             schedule: Option<ScheduleConfig>, notifications: Option<NotificationConfig>)

  /** The councilor being edited; only its configuration is read. */
  datatype Councilor = Councilor(config: Option<CouncilorConfig>)

  /** The payload emitted on `save`. */
  datatype UpdateData = UpdateData(title: string, taskName: string, taskPrompt: string, contextFiles: seq<string>,
                                   scheduleValue: string, enabled: bool,
                                   onSuccess: bool, onWarning: bool, onError: bool, channels: seq<string>)

  const DefaultSchedule: string := "30m"
  const DefaultChannels: seq<string> := ["panel"]

  /** `getScheduleExamples()`. */
  const ScheduleExamples: seq<string> := ["15m", "30m", "1h", "2h", "6h", "12h", "1d"]

  /** The failed checks of `validateForm`, each with the message it shows. */
  datatype FormError = MissingTitle | MissingTaskName | MissingPrompt | BadInterval
  {
    function Message(): string {
      match this
      case MissingTitle => "O título é obrigatório"
      case MissingTaskName => "O nome da tarefa é obrigatório"
      case MissingPrompt => "O prompt da tarefa é obrigatório"
      case BadInterval => "Formato de intervalo inválido. Use: 30m, 1h, 2d"
    }
  }

  /** `s || fallback` for an optional string. */
  function StringOr(s: Option<string>, fallback: string): string {
    if Truthy(s) then s.value else fallback
  }

  /** `b || fallback` for an optional flag. */
  function FlagOr(b: Option<bool>, fallback: bool): bool {
    (b.Some? && b.value) || fallback
  }

  // ---------------------------------------------------------------- form

  datatype Form = Form(councilor: Option<Councilor>, title: string, taskName: string, taskPrompt: string,
                       scheduleValue: string, notifyOnSuccess: bool, notifyOnWarning: bool, notifyOnError: bool,
                       isSaving: bool, errorMessage: string, emitted: seq<UpdateData>, closeCount: nat)

  /** The field initialisers, before `ngOnInit`. */
  function InitialForm(councilor: Option<Councilor>): Form {
    Form(councilor, "", "", "", "", false, true, true, false, "", [], 0)
  }

  /** `ngOnInit()`: a councilor with a configuration fills the form; otherwise nothing changes. */
  function InitIn(f: Form): Form {
    if f.councilor.Some? && f.councilor.value.config.Some? then Loaded(f, f.councilor.value.config.value) else f
  }

  /** The form filled from a configuration: `x || default` for every field. */
  function Loaded(f: Form, c: CouncilorConfig): Form {
    Form(f.councilor, StringOr(c.title, ""), StringOr(TaskName(c), ""), StringOr(TaskPrompt(c), ""),
         StringOr(ScheduleText(c), DefaultSchedule),
         FlagOr(NotifyFlag(c, 0), false), FlagOr(NotifyFlag(c, 1), true), FlagOr(NotifyFlag(c, 2), true),
         f.isSaving, f.errorMessage, f.emitted, f.closeCount)
  }

  /** `config.task?.name`. */
  function TaskName(c: CouncilorConfig): Option<string> {
    if c.task.Some? then c.task.value.name else None
  }

  /** `config.task?.prompt`. */
  function TaskPrompt(c: CouncilorConfig): Option<string> {
    if c.task.Some? then c.task.value.prompt else None
  }

  /** `config.schedule?.value`. */
  function ScheduleText(c: CouncilorConfig): Option<string> {
    if c.schedule.Some? then c.schedule.value.value else None
  }

  /** `config.notifications?.on_success`, `on_warning` and `on_error`, for `which` 0, 1 and 2. */
  function NotifyFlag(c: CouncilorConfig, which: nat): Option<bool> {
    match c.notifications
    case None => None
    case Some(n) => if which == 0 then n.onSuccess else if which == 1 then n.onWarning else n.onError
  }

  /** The first check of `validateForm` that fails, if any. */
  function FirstError(f: Form): Option<FormError> {
    if Trim(f.title) == "" then Some(MissingTitle)
    else if Trim(f.taskName) == "" then Some(MissingTaskName)
    else if Trim(f.taskPrompt) == "" then Some(MissingPrompt)
    else if !CouncilorScheduler.IsIntervalText(f.scheduleValue) then Some(BadInterval)
    else None
  }

  /** What `validateForm()` returns: no check fails. */
  predicate FormValid(f: Form) {
    FirstError(f).None?
  }

  /** `validateForm()` on the form: the error is cleared, then set to the first failing check's message. */
  function ValidatedIn(f: Form): Form {
    var e := FirstError(f);
    f.(errorMessage := if e.Some? then e.value.Message() else "")
  }

  /** The update `onSave` emits: trimmed texts, the schedule value as typed, defaults for what the configuration lacks. */
  function UpdateOf(f: Form, c: Option<CouncilorConfig>): UpdateData {
    var task := if c.Some? then c.value.task else None;
    var schedule := if c.Some? then c.value.schedule else None;
    var notifications := if c.Some? then c.value.notifications else None;
    var contextFiles := if task.Some? then task.value.contextFiles else None;
    var enabled := if schedule.Some? then schedule.value.enabled else None;
    var channels := if notifications.Some? then notifications.value.channels else None;
    UpdateData(Trim(f.title), Trim(f.taskName), Trim(f.taskPrompt), contextFiles.GetOr([]),
               f.scheduleValue, FlagOr(enabled, true),
               f.notifyOnSuccess, f.notifyOnWarning, f.notifyOnError, channels.GetOr(DefaultChannels))
  }

  /** `onSave()` up to the emit; the parent closes the modal later. */
  function SavedIn(f: Form): Form {
    var g := ValidatedIn(f);
    if !FormValid(f) || g.councilor.None? then g
    else g.(isSaving := true, errorMessage := "", emitted := g.emitted + [UpdateOf(g, g.councilor.value.config)])
  }

  /** `SavedIn` unfolded, for the method that follows it step by step. */
  lemma SavedInCases(f: Form)
    ensures var g := ValidatedIn(f);
      SavedIn(f) == if !FormValid(f) || g.councilor.None? then g
                    else g.(isSaving := true, errorMessage := "", emitted := g.emitted + [UpdateOf(g, g.councilor.value.config)])
  {
  }

  /** `onClose()`: nothing happens while saving. */
  function ClosedIn(f: Form): Form {
    if f.isSaving then f else f.(closeCount := f.closeCount + 1)
  }

  /** `setError(error)`. */
  function ErrorSetIn(f: Form, error: string): Form {
    f.(errorMessage := error, isSaving := false)
  }

  // --------------------------------------------------------------- facts

  /**
   * After loading a configuration, warnings and errors are always notified:
   * `x || true` is true whatever `x` is. Success is notified only when the
   * configuration says so.
   */
  lemma InitAlwaysNotifiesWarningsAndErrors(f: Form)
    requires f.councilor.Some? && f.councilor.value.config.Some?
    ensures InitIn(f).notifyOnWarning && InitIn(f).notifyOnError
    ensures var n := f.councilor.value.config.value.notifications;
      InitIn(f).notifyOnSuccess <==> n.Some? && n.value.onSuccess == Some(true)
  {
  }

  /** A configuration without a usable interval loads the default, which passes the interval check. */
  lemma InitDefaultInterval(f: Form)
    requires f.councilor.Some? && f.councilor.value.config.Some?
    requires var s := f.councilor.value.config.value.schedule; s.None? || !Truthy(s.value.value)
    ensures InitIn(f).scheduleValue == DefaultSchedule && CouncilorScheduler.IsIntervalText(InitIn(f).scheduleValue)
  {
    assert DefaultSchedule[..2] == "30";
  }

  /** Without a configuration `ngOnInit` keeps the initial values. */
  lemma InitWithoutConfig(f: Form)
    requires f.councilor.None? || f.councilor.value.config.None?
    ensures InitIn(f) == f
  {
  }

  /**
   * `validateForm` returns true exactly when all four checks pass, and then
   * leaves no message; only `errorMessage` changes.
   */
  lemma ValidateIffAllPass(f: Form)
    ensures FormValid(f) <==> (!AllSpace(f.title) && !AllSpace(f.taskName) && !AllSpace(f.taskPrompt)
                               && CouncilorScheduler.IsIntervalText(f.scheduleValue))
    ensures FormValid(f) ==> ValidatedIn(f).errorMessage == ""
    ensures ValidatedIn(f) == f.(errorMessage := ValidatedIn(f).errorMessage)
  {
    TrimEmptyIffAllSpace(f.title);
    TrimEmptyIffAllSpace(f.taskName);
    TrimEmptyIffAllSpace(f.taskPrompt);
  }

  /** The checks run in order, and the message is that of the first one that fails. */
  lemma ValidateOrder(f: Form)
    ensures AllSpace(f.title) ==> ValidatedIn(f).errorMessage == MissingTitle.Message()
    ensures !AllSpace(f.title) && AllSpace(f.taskName) ==> ValidatedIn(f).errorMessage == MissingTaskName.Message()
    ensures !AllSpace(f.title) && !AllSpace(f.taskName) && AllSpace(f.taskPrompt) ==>
      ValidatedIn(f).errorMessage == MissingPrompt.Message()
    ensures (!AllSpace(f.title) && !AllSpace(f.taskName) && !AllSpace(f.taskPrompt)
             && !CouncilorScheduler.IsIntervalText(f.scheduleValue)) ==>
      ValidatedIn(f).errorMessage == BadInterval.Message()
  {
    TrimEmptyIffAllSpace(f.title);
    TrimEmptyIffAllSpace(f.taskName);
    TrimEmptyIffAllSpace(f.taskPrompt);
  }

  /** Every suggested interval passes the interval check. */
  lemma ScheduleExamplesAreValid()
    ensures forall i :: 0 <= i < |ScheduleExamples| ==> CouncilorScheduler.IsIntervalText(ScheduleExamples[i])
  {
    forall i | 0 <= i < |ScheduleExamples| ensures CouncilorScheduler.IsIntervalText(ScheduleExamples[i]) {
      var e := ScheduleExamples[i];
      assert |e| >= 2;
      assert AllDigits(e[..|e| - 1]);
    }
  }

  /**
   * Saving emits one update exactly when the form is valid and there is a
   * councilor; the update carries the trimmed texts, is always enabled, and
   * falls back to the panel channel only when none is configured.
   */
  lemma SaveEmitsOnValidForm(f: Form)
    ensures SavedIn(f).emitted == f.emitted || |SavedIn(f).emitted| == |f.emitted| + 1
    ensures |SavedIn(f).emitted| == |f.emitted| + 1 <==> FormValid(f) && f.councilor.Some?
    ensures |SavedIn(f).emitted| == |f.emitted| + 1 ==>
      var u := SavedIn(f).emitted[|f.emitted|];
      SavedIn(f).isSaving && SavedIn(f).errorMessage == ""
      && u.title == Trim(f.title) && u.taskName == Trim(f.taskName) && u.taskPrompt == Trim(f.taskPrompt)
      && u.scheduleValue == f.scheduleValue && u.enabled
      && u.onWarning == f.notifyOnWarning && u.onError == f.notifyOnError && u.onSuccess == f.notifyOnSuccess
      && u.title != "" && u.taskName != "" && u.taskPrompt != ""
  {
  }

  /** Closing is refused while a save is in flight. */
  lemma CloseBlockedWhileSaving(f: Form)
    ensures f.isSaving ==> ClosedIn(f) == f
    ensures !f.isSaving ==> ClosedIn(f).closeCount == f.closeCount + 1
  {
  }

  /** `setError` shows the parent's message and ends the busy state, so the modal can be closed again. */
  lemma ErrorSetAllowsClose(f: Form, error: string)
    ensures ErrorSetIn(f, error).errorMessage == error && !ErrorSetIn(f, error).isSaving
    ensures ClosedIn(ErrorSetIn(f, error)).closeCount == f.closeCount + 1
  {
  }

  // ----------------------------------------------------------- component

  class CouncilorEditModalComponent {
    var councilor: Option<Councilor>
    var title: string
    var taskName: string
    var taskPrompt: string
    var scheduleValue: string
    var notifyOnSuccess: bool
    var notifyOnWarning: bool
    var notifyOnError: bool
    var isSaving: bool
    var errorMessage: string
    var emitted: seq<UpdateData>
    var closeCount: nat

    constructor (councilor: Option<Councilor>)
      ensures State() == InitialForm(councilor)
    {
      this.councilor := councilor;
      title, taskName, taskPrompt, scheduleValue := "", "", "", "";
      notifyOnSuccess, notifyOnWarning, notifyOnError := false, true, true;
      isSaving := false;
      errorMessage := "";
      emitted := [];
      closeCount := 0;
    }

    function State(): Form
      reads this
    {
      Form(councilor, title, taskName, taskPrompt, scheduleValue, notifyOnSuccess, notifyOnWarning, notifyOnError,
           isSaving, errorMessage, emitted, closeCount)
    }

    method NgOnInit()
      modifies this
      ensures State() == InitIn(old(State()))
    {
      ghost var expected := InitIn(State());
      if councilor.Some? && councilor.value.config.Some? {
        LoadConfig(councilor.value.config.value);
      }
      assert State() == expected;
    }

    /** The body of `ngOnInit` once the configuration is known: the texts, then the flags. */
    method LoadConfig(config: CouncilorConfig)
      modifies this
      ensures State() == Loaded(old(State()), config)
    {
      LoadTexts(config);
      LoadFlags(config);
    }

    method LoadTexts(config: CouncilorConfig)
      modifies this
      ensures State() == old(State()).(title := StringOr(config.title, ""), taskName := StringOr(TaskName(config), ""),
                                       taskPrompt := StringOr(TaskPrompt(config), ""),
                                       scheduleValue := StringOr(ScheduleText(config), DefaultSchedule))
    {
      title := StringOr(config.title, "");
      taskName := StringOr(TaskName(config), "");
      taskPrompt := StringOr(TaskPrompt(config), "");
      scheduleValue := StringOr(ScheduleText(config), DefaultSchedule);
    }

    method LoadFlags(config: CouncilorConfig)
      modifies this
      ensures State() == old(State()).(notifyOnSuccess := FlagOr(NotifyFlag(config, 0), false),
                                       notifyOnWarning := FlagOr(NotifyFlag(config, 1), true),
                                       notifyOnError := FlagOr(NotifyFlag(config, 2), true))
    {
      notifyOnSuccess := FlagOr(NotifyFlag(config, 0), false);
      notifyOnWarning := FlagOr(NotifyFlag(config, 1), true);
      notifyOnError := FlagOr(NotifyFlag(config, 2), true);
    }

    /** `validateForm()`: the checks themselves, in their order, are `FirstError`. */
    method ValidateForm() returns (ok: bool)
      modifies this
      ensures State() == ValidatedIn(old(State())) && (ok <==> FormValid(old(State())))
    {
      var error := FirstError(State());
      ShowError("");
      if error.Some? {
        ShowError(error.value.Message());
      }
      ok := error.None?;
    }

    /** `this.errorMessage = message`. */
    method ShowError(message: string)
      modifies this
      ensures State() == old(State()).(errorMessage := message)
    {
      errorMessage := message;
    }

    method OnSave()
      modifies this
      ensures State() == SavedIn(old(State()))
    {
      SavedInCases(State());
      var ok := ValidateForm();
      if !ok || councilor.None? {
        return;
      }
      var updateData := UpdateOf(State(), councilor.value.config);
      StartSaving(updateData);
    }

    /** The end of `onSave`: busy, no error, and `updateData` emitted. */
    method StartSaving(updateData: UpdateData)
      modifies this
      ensures State() == old(State()).(isSaving := true, errorMessage := "", emitted := old(emitted) + [updateData])
    {
      isSaving := true;
      errorMessage := "";
      emitted := emitted + [updateData];
    }

    method OnClose()
      modifies this
      ensures State() == ClosedIn(old(State()))
    {
      if isSaving {
        return;
      }
      closeCount := closeCount + 1;
    }

    /** `setLoadingState(loading)`. */
    method SetLoadingState(loading: bool)
      modifies this
      ensures State() == old(State()).(isSaving := loading)
    {
      isSaving := loading;
    }

    method SetError(error: string)
      modifies this
      ensures State() == ErrorSetIn(old(State()), error)
    {
      errorMessage := error;
      isSaving := false;
    }

    /** `setScheduleValue(value)`. */
    method SetScheduleValue(value: string)
      modifies this
      ensures State() == old(State()).(scheduleValue := value)
    {
      scheduleValue := value;
    }
  }
}
