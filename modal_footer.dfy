/**
 * The shared modal footer: the CSS classes of a button, the click that
 * emits the button's action unless it is disabled or loading, and the
 * factories that spread `Partial<ModalButton>` overrides over the standard
 * cancel, confirm and delete buttons.
 */
module ModalFooter {
  import opened Wrappers
  import opened JsText

  datatype ButtonType = Primary | Secondary | Danger | Success | Warning
  {
    function Name(): string {
      match this
      case Primary => "primary"
      case Secondary => "secondary"
      case Danger => "danger"
      case Success => "success"
      case Warning => "warning"
    }
  }

  /**
   * `ModalButton`. Every field can be `undefined` at run time: the factories
   * spread `Partial` overrides over the defaults, and a key given with the
   * value `undefined` replaces the default. The `label` field is `caption`
   * here and `type` is `buttonType`, since both names are Dafny keywords.
   */
  datatype ModalButton = ModalButton(caption: Option<string>, buttonType: Option<ButtonType>, action: Option<string>,
                                     disabled: Option<bool>, loading: Option<bool>, ariaLabel: Option<string>,
                                     icon: Option<string>, fullWidth: Option<bool>)

  /** An optional flag read in a condition: only `true` counts. */
  predicate IsOn(b: Option<bool>) { b == Some(true) }

  /** `${button.type}`, which prints `undefined` for a missing type. */
  function TypeName(t: Option<ButtonType>): string {
    if t.Some? then t.value.Name() else "undefined"
  }

  // ------------------------------------------------------------ classes

  /** The list `getButtonClass` builds before joining it. */
  function ButtonClasses(b: ModalButton): seq<string> {
    ["btn", "btn-" + TypeName(b.buttonType)]
    + (if IsOn(b.loading) then ["btn-loading"] else [])
    + (if IsOn(b.fullWidth) then ["btn-full-width"] else [])
  }

  /** `getButtonClass(button)`: the classes joined with single spaces. */
  function GetButtonClass(b: ModalButton): string {
    Join(ButtonClasses(b), ' ')
  }

  /** No class name holds a space, so joining and splitting on spaces are inverse. */
  lemma NamesHaveNoSpace(t: Option<ButtonType>)
    ensures !Has("btn-" + TypeName(t), ' ')
  {
    var n := TypeName(t);
    assert !Has(n, ' ') by {
      if t == Some(Secondary) {
        assert forall i :: 0 <= i < |"secondary"| ==> "secondary"[i] != ' ';
      } else if t == Some(Primary) {
        assert forall i :: 0 <= i < |"primary"| ==> "primary"[i] != ' ';
      } else if t == Some(Danger) {
        assert forall i :: 0 <= i < |"danger"| ==> "danger"[i] != ' ';
      } else if t == Some(Success) {
        assert forall i :: 0 <= i < |"success"| ==> "success"[i] != ' ';
      } else if t == Some(Warning) {
        assert forall i :: 0 <= i < |"warning"| ==> "warning"[i] != ' ';
      } else {
        assert forall i :: 0 <= i < |"undefined"| ==> "undefined"[i] != ' ';
      }
    }
    var s := "btn-" + n;
    forall i | 0 <= i < |s| ensures s[i] != ' ' {
      if i >= 4 {
        assert s[i] == n[i - 4];
      }
    }
  }

  lemma FixedClassesHaveNoSpace()
    ensures !Has("btn", ' ') && !Has("btn-loading", ' ') && !Has("btn-full-width", ' ')
  {
    assert forall i :: 0 <= i < 3 ==> "btn"[i] != ' ';
    assert forall i :: 0 <= i < |"btn-loading"| ==> "btn-loading"[i] != ' ';
    assert forall i :: 0 <= i < |"btn-full-width"| ==> "btn-full-width"[i] != ' ';
  }

  /**
   * The class attribute splits back into its classes: `btn` and
   * `btn-<type>` always come first, `btn-loading` is there exactly when
   * the button is loading, `btn-full-width` exactly when it is full width,
   * and there is nothing else.
   */
  lemma GetButtonClassTokens(b: ModalButton)
    ensures var t := Split(GetButtonClass(b), ' ');
      |t| == 2 + (if IsOn(b.loading) then 1 else 0) + (if IsOn(b.fullWidth) then 1 else 0)
      && t[0] == "btn" && t[1] == "btn-" + TypeName(b.buttonType)
    ensures "btn-loading" in Split(GetButtonClass(b), ' ') <==> IsOn(b.loading)
    ensures "btn-full-width" in Split(GetButtonClass(b), ' ') <==> IsOn(b.fullWidth)
  {
    SplitButtonClass(b);
    ButtonClassesMembers(b);
  }

  /** Splitting the class attribute on spaces gives back the list it was joined from. */
  lemma SplitButtonClass(b: ModalButton)
    ensures Split(GetButtonClass(b), ' ') == ButtonClasses(b)
  {
    var classes := ButtonClasses(b);
    NamesHaveNoSpace(b.buttonType);
    FixedClassesHaveNoSpace();
    assert forall k :: 0 <= k < |classes| ==> !Has(classes[k], ' ');
    SplitJoin(classes, ' ');
  }

  /** The classes themselves: the two fixed ones, then one per flag that is on. */
  lemma ButtonClassesMembers(b: ModalButton)
    ensures var t := ButtonClasses(b);
      |t| == 2 + (if IsOn(b.loading) then 1 else 0) + (if IsOn(b.fullWidth) then 1 else 0)
      && t[0] == "btn" && t[1] == "btn-" + TypeName(b.buttonType)
    ensures "btn-loading" in ButtonClasses(b) <==> IsOn(b.loading)
    ensures "btn-full-width" in ButtonClasses(b) <==> IsOn(b.fullWidth)
  {
    TypeClassIsNotAFlag(b.buttonType);
    assert "btn" != "btn-loading" && "btn" != "btn-full-width" && "btn-loading" != "btn-full-width";
  }

  /** The type class never reads like one of the flag classes. */
  lemma TypeClassIsNotAFlag(t: Option<ButtonType>)
    ensures "btn-" + TypeName(t) != "btn-loading" && "btn-" + TypeName(t) != "btn-full-width"
  {
    var s := "btn-" + TypeName(t);
    assert s[4] == TypeName(t)[0];
  }

  // -------------------------------------------------------------- click

  /** The outcome of a click on a footer button. */
  datatype Click = Emitted(action: Option<string>) | Blocked

  /** `onButtonClick(button)`. */
  function OnButtonClick(b: ModalButton): Click {
    if !IsOn(b.disabled) && !IsOn(b.loading) then Emitted(b.action) else Blocked
  }

  /** The template's `[disabled]="button.disabled || button.loading"`. */
  predicate RenderedDisabled(b: ModalButton) {
    IsOn(b.disabled) || IsOn(b.loading)
  }

  /** A click emits exactly when the rendered button is enabled, and what it emits is the button's action. */
  lemma ClickEmitsIffEnabled(b: ModalButton)
    ensures OnButtonClick(b).Emitted? <==> !RenderedDisabled(b)
    ensures OnButtonClick(b).Emitted? ==> OnButtonClick(b).action == b.action
    ensures IsOn(b.loading) ==> OnButtonClick(b) == Blocked && "btn-loading" in Split(GetButtonClass(b), ' ')
  {
    GetButtonClassTokens(b);
  }

  // ---------------------------------------------------------- factories

  /** One key of a `Partial<ModalButton>`: left out, or given (possibly as `undefined`). */
  datatype Prop<T> = Absent | Given(value: Option<T>)

  /** `{ ...base, ...overrides }` for one key. */
  function Spread<T>(base: Option<T>, p: Prop<T>): Option<T> {
    match p
    case Absent => base
    case Given(v) => v
  }

  datatype ButtonOverrides = ButtonOverrides(caption: Prop<string>, buttonType: Prop<ButtonType>, action: Prop<string>,
                                             disabled: Prop<bool>, loading: Prop<bool>, ariaLabel: Prop<string>,
                                             icon: Prop<string>, fullWidth: Prop<bool>)

  const NoOverrides: ButtonOverrides := ButtonOverrides(Absent, Absent, Absent, Absent, Absent, Absent, Absent, Absent)

  /** The object literal of a factory with `...overrides` last; spreading `undefined` adds nothing. */
  function WithOverrides(base: ModalButton, overrides: Option<ButtonOverrides>): ModalButton {
    var o := overrides.GetOr(NoOverrides);
    ModalButton(Spread(base.caption, o.caption), Spread(base.buttonType, o.buttonType), Spread(base.action, o.action),
                Spread(base.disabled, o.disabled), Spread(base.loading, o.loading), Spread(base.ariaLabel, o.ariaLabel),
                Spread(base.icon, o.icon), Spread(base.fullWidth, o.fullWidth))
  }

  const CancelDefaults: ModalButton := ModalButton(Some("Cancelar"), Some(Secondary), Some("cancel"), None, None, None, None, None)
  const ConfirmDefaults: ModalButton := ModalButton(Some("Confirmar"), Some(Primary), Some("confirm"), None, None, None, None, None)
  const DeleteDefaults: ModalButton := ModalButton(Some("Deletar"), Some(Danger), Some("delete"), None, None, None, None, None)

  /** `createCancelButton(overrides?)`. */
  function CreateCancelButton(overrides: Option<ButtonOverrides>): ModalButton {
    WithOverrides(CancelDefaults, overrides)
  }

  /** `createConfirmButton(overrides?)`. */
  function CreateConfirmButton(overrides: Option<ButtonOverrides>): ModalButton {
    WithOverrides(ConfirmDefaults, overrides)
  }

  /** `createDeleteButton(overrides?)`. */
  function CreateDeleteButton(overrides: Option<ButtonOverrides>): ModalButton {
    WithOverrides(DeleteDefaults, overrides)
  }

  /** Field `r` of a spread result: the override when its key is given, the default otherwise. */
  predicate TakesOverride<T(==)>(r: Option<T>, base: Option<T>, p: Prop<T>) {
    (p.Given? ==> r == p.value) && (p.Absent? ==> r == base)
  }

  /**
   * Every key the overrides give wins over the default, even when given as
   * `undefined`; every other key keeps the default. Without overrides the
   * defaults come back unchanged.
   */
  lemma OverridesTakePrecedence(base: ModalButton, overrides: Option<ButtonOverrides>)
    ensures overrides.None? ==> WithOverrides(base, overrides) == base
    ensures overrides.Some? ==>
      var r := WithOverrides(base, overrides); var o := overrides.value;
      TakesOverride(r.caption, base.caption, o.caption) && TakesOverride(r.buttonType, base.buttonType, o.buttonType)
      && TakesOverride(r.action, base.action, o.action) && TakesOverride(r.disabled, base.disabled, o.disabled)
      && TakesOverride(r.loading, base.loading, o.loading) && TakesOverride(r.ariaLabel, base.ariaLabel, o.ariaLabel)
      && TakesOverride(r.icon, base.icon, o.icon) && TakesOverride(r.fullWidth, base.fullWidth, o.fullWidth)
  {
  }

  /** Each factory called without overrides gives its standard button: label, style and action. */
  lemma FactoryDefaults()
    ensures var c := CreateCancelButton(None);
      c.caption == Some("Cancelar") && c.buttonType == Some(Secondary) && c.action == Some("cancel")
    ensures var c := CreateConfirmButton(None);
      c.caption == Some("Confirmar") && c.buttonType == Some(Primary) && c.action == Some("confirm")
    ensures var c := CreateDeleteButton(None);
      c.caption == Some("Deletar") && c.buttonType == Some(Danger) && c.action == Some("delete")
    ensures OnButtonClick(CreateCancelButton(None)) == Emitted(Some("cancel"))
  {
  }

  // ----------------------------------------------------- default buttons

  datatype DefaultButtonsOptions = DefaultButtonsOptions(cancelLabel: Option<string>, confirmLabel: Option<string>,
                                                         confirmDisabled: Option<bool>, confirmLoading: Option<bool>)

  const NoOptions: DefaultButtonsOptions := DefaultButtonsOptions(None, None, None, None)

  /**
   * `createDefaultButtons(options?)` as written: every key is passed on as
   * `options?.x`, so a key left out reaches the factory as an explicit
   * `undefined`.
   */
  function CreateDefaultButtons(options: Option<DefaultButtonsOptions>): seq<ModalButton> {
    var o := options.GetOr(NoOptions);
    [CreateCancelButton(Some(NoOverrides.(caption := Given(o.cancelLabel)))),
     CreateConfirmButton(Some(NoOverrides.(caption := Given(o.confirmLabel), disabled := Given(o.confirmDisabled),
                                           loading := Given(o.confirmLoading))))]
  }

  /** A key that is present only when its value is defined. */
  function Defined<T>(v: Option<T>): Prop<T> {
    if v.Some? then Given(v) else Absent
  }

  /** `createDefaultButtons(options?)` passing on only the options that are set. */
  function CreateDefaultButtonsKeepingLabels(options: Option<DefaultButtonsOptions>): seq<ModalButton> {
    var o := options.GetOr(NoOptions);
    [CreateCancelButton(Some(NoOverrides.(caption := Defined(o.cancelLabel)))),
     CreateConfirmButton(Some(NoOverrides.(caption := Defined(o.confirmLabel), disabled := Defined(o.confirmDisabled),
                                           loading := Defined(o.confirmLoading))))]
  }

  /**
   * As written, a missing label option wipes the default label: called with
   * no options at all, both buttons end up with an `undefined` label
   * instead of `Cancelar` and `Confirmar`. The order and the actions are
   * still cancel, then confirm.
   */
  lemma DefaultButtonsLoseLabels(options: Option<DefaultButtonsOptions>)
    ensures |CreateDefaultButtons(options)| == 2
    ensures CreateDefaultButtons(options)[0].action == Some("cancel")
    ensures CreateDefaultButtons(options)[1].action == Some("confirm")
    ensures options.GetOr(NoOptions).cancelLabel.None? ==> CreateDefaultButtons(options)[0].caption == None
    ensures options.GetOr(NoOptions).confirmLabel.None? ==> CreateDefaultButtons(options)[1].caption == None
    ensures options.None? ==> CreateDefaultButtons(options)[0].caption != CancelDefaults.caption
                              && CreateDefaultButtons(options)[1].caption != ConfirmDefaults.caption
  {
  }

  /**
   * With only the set options passed on, the pair is the cancel button then
   * the confirm button; each label is the option when given and the
   * factory's default otherwise, and the confirm button is disabled or
   * loading exactly as the options say.
   */
  lemma DefaultButtonsKeepLabels(options: Option<DefaultButtonsOptions>)
    ensures var r := CreateDefaultButtonsKeepingLabels(options); var o := options.GetOr(NoOptions);
      |r| == 2
      && r[0].action == Some("cancel") && r[0].buttonType == Some(Secondary)
      && r[1].action == Some("confirm") && r[1].buttonType == Some(Primary)
      && r[0].caption == (if o.cancelLabel.Some? then o.cancelLabel else Some("Cancelar"))
      && r[1].caption == (if o.confirmLabel.Some? then o.confirmLabel else Some("Confirmar"))
      && r[1].disabled == o.confirmDisabled && r[1].loading == o.confirmLoading
      && !RenderedDisabled(r[0])
    ensures var r := CreateDefaultButtonsKeepingLabels(options); var o := options.GetOr(NoOptions);
      OnButtonClick(r[1]).Emitted? <==> !IsOn(o.confirmDisabled) && !IsOn(o.confirmLoading)
  {
  }
}
