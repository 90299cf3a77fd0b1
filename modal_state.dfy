/**
 * The registry of which chat modals are open. Each operation replaces the
 * whole record of flags; opening any other modal closes the agent options
 * menu, and Escape closes the last open modal in declaration order.
 */
module ModalState {
  import opened JsText

  datatype ModalType =
    PersonaModal | PersonaEditModal | CwdModal | ContextEditor | ContextEditorModal | AgentOptionsMenu | DockInfoModal

  /** The keys of the state record, in declaration order (the order `Object.keys` lists them). */
  const AllModals: seq<ModalType> :=
    [PersonaModal, PersonaEditModal, CwdModal, ContextEditor, ContextEditorModal, AgentOptionsMenu, DockInfoModal]

  function Position(t: ModalType): (i: nat)
    ensures i < |AllModals| && AllModals[i] == t
  {
    match t
    case PersonaModal => 0
    case PersonaEditModal => 1
    case CwdModal => 2
    case ContextEditor => 3
    case ContextEditorModal => 4
    case AgentOptionsMenu => 5
    case DockInfoModal => 6
  }

  datatype Flags = Flags(personaModal: bool, personaEditModal: bool, cwdModal: bool, contextEditor: bool,
                         contextEditorModal: bool, agentOptionsMenu: bool, dockInfoModal: bool)

  /** Every modal closed. */
  const InitialFlags := Flags(false, false, false, false, false, false, false)

  /** `state[t]`. */
  function Get(s: Flags, t: ModalType): bool {
    match t
    case PersonaModal => s.personaModal
    case PersonaEditModal => s.personaEditModal
    case CwdModal => s.cwdModal
    case ContextEditor => s.contextEditor
    case ContextEditorModal => s.contextEditorModal
    case AgentOptionsMenu => s.agentOptionsMenu
    case DockInfoModal => s.dockInfoModal
  }

  /** `{ ...state, [t]: b }`. */
  function Put(s: Flags, t: ModalType, b: bool): (r: Flags)
    ensures Get(r, t) == b
    ensures forall u :: u != t ==> Get(r, u) == Get(s, u)
  {
    match t
    case PersonaModal => s.(personaModal := b)
    case PersonaEditModal => s.(personaEditModal := b)
    case CwdModal => s.(cwdModal := b)
    case ContextEditor => s.(contextEditor := b)
    case ContextEditorModal => s.(contextEditorModal := b)
    case AgentOptionsMenu => s.(agentOptionsMenu := b)
    case DockInfoModal => s.(dockInfoModal := b)
  }

  /** `open(t)`. */
  function Opened(s: Flags, t: ModalType): Flags {
    var shouldCloseMenu := t != AgentOptionsMenu && s.agentOptionsMenu;
    var r := Put(s, t, true);
    if shouldCloseMenu then Put(r, AgentOptionsMenu, false) else r
  }

  /** `close(t)`. */
  function Closed(s: Flags, t: ModalType): Flags {
    Put(s, t, false)
  }

  /** `toggle(t)`: open a closed modal, close an open one. */
  function Toggled(s: Flags, t: ModalType): Flags {
    if !Get(s, t) then Opened(s, t) else Closed(s, t)
  }

  /** The open modals among `ts`, in order. */
  function OpenAmong(s: Flags, ts: seq<ModalType>): (r: seq<ModalType>)
    ensures forall t :: t in r <==> t in ts && Get(s, t)
  {
    if ts == [] then [] else (if Get(s, ts[0]) then [ts[0]] else []) + OpenAmong(s, ts[1..])
  }

  /** `getOpenModals()`. */
  function OpenModals(s: Flags): seq<ModalType> {
    OpenAmong(s, AllModals)
  }

  /** `isAnyModalOpen()`: some flag is set. */
  predicate AnyOpen(s: Flags) {
    s.personaModal || s.personaEditModal || s.cwdModal || s.contextEditor
    || s.contextEditorModal || s.agentOptionsMenu || s.dockInfoModal
  }

  /** `handleEscapeKey()`. */
  function AfterEscape(s: Flags): Flags {
    var open := OpenModals(s);
    if |open| > 0 then Closed(s, Last(open)) else s
  }

  // ----------------------------------------------------------------- lemmas

  /** All modals start closed. */
  lemma InitiallyClosed()
    ensures forall t :: !Get(InitialFlags, t)
    ensures OpenModals(InitialFlags) == [] && !AnyOpen(InitialFlags)
  {
  }

  /**
   * `open` sets that modal; opening any other modal closes the options menu;
   * no other flag changes.
   */
  lemma OpenFacts(s: Flags, t: ModalType)
    ensures Get(Opened(s, t), t)
    ensures t != AgentOptionsMenu ==> !Opened(s, t).agentOptionsMenu
    ensures forall u :: u != t && u != AgentOptionsMenu ==> Get(Opened(s, t), u) == Get(s, u)
    ensures t == AgentOptionsMenu ==> Opened(s, t) == Put(s, t, true)
  {
  }

  /** `close` clears that modal only; `toggle` flips it. */
  lemma CloseAndToggleFacts(s: Flags, t: ModalType)
    ensures !Get(Closed(s, t), t) && forall u :: u != t ==> Get(Closed(s, t), u) == Get(s, u)
    ensures Get(Toggled(s, t), t) == !Get(s, t)
    ensures Get(s, t) ==> Toggled(s, t) == Closed(s, t)
    ensures !Get(s, t) ==> Toggled(s, t) == Opened(s, t)
  {
  }

  /** Toggling the options menu twice restores the state. */
  lemma ToggleMenuTwice(s: Flags)
    ensures Toggled(Toggled(s, AgentOptionsMenu), AgentOptionsMenu) == s
  {
    var t := AgentOptionsMenu;
    assert forall u :: Get(Toggled(Toggled(s, t), t), u) == Get(s, u);
  }

  /** `ts` lists modals in strictly increasing declaration order. */
  predicate InDeclarationOrder(ts: seq<ModalType>) {
    forall i, j :: 0 <= i < j < |ts| ==> Position(ts[i]) < Position(ts[j])
  }

  lemma {:induction false} OpenAmongOrdered(s: Flags, ts: seq<ModalType>)
    requires InDeclarationOrder(ts)
    ensures InDeclarationOrder(OpenAmong(s, ts))
  {
    if ts != [] {
      OpenAmongOrdered(s, ts[1..]);
      var tail := OpenAmong(s, ts[1..]);
      var r := OpenAmong(s, ts);
      forall j | 0 <= j < |tail| ensures Position(ts[0]) < Position(tail[j]) {
        assert tail[j] in tail;
        assert tail[j] in ts[1..];
        var k :| 0 <= k < |ts[1..]| && ts[1..][k] == tail[j];
        assert ts[k + 1] == tail[j];
      }
      if Get(s, ts[0]) {
        assert r == [ts[0]] + tail;
        forall i, j | 0 <= i < j < |r| ensures Position(r[i]) < Position(r[j]) {
          assert r[j] == tail[j - 1];
          if i > 0 {
            assert r[i] == tail[i - 1];
            assert Position(tail[i - 1]) < Position(tail[j - 1]);
          } else {
            assert r[i] == ts[0];
          }
        }
      } else {
        assert r == tail;
      }
    }
  }

  lemma AllModalsOrdered()
    ensures InDeclarationOrder(AllModals)
  {
    forall i | 0 <= i < |AllModals| ensures Position(AllModals[i]) == i {
      if i == 0 {} else if i == 1 {} else if i == 2 {} else if i == 3 {} else if i == 4 {} else if i == 5 {} else {}
    }
  }

  /** The open modals are listed in declaration order, each exactly when it is open. */
  lemma OpenModalsExact(s: Flags)
    ensures forall t :: t in OpenModals(s) <==> Get(s, t)
    ensures InDeclarationOrder(OpenModals(s))
  {
    AllModalsOrdered();
    OpenAmongOrdered(s, AllModals);
    forall t ensures t in AllModals {
      assert AllModals[Position(t)] == t;
    }
  }

  /** `isAnyModalOpen()` holds exactly when `getOpenModals()` is non-empty. */
  lemma AnyOpenIffOpenModals(s: Flags)
    ensures AnyOpen(s) <==> OpenModals(s) != []
  {
    OpenModalsExact(s);
    if AnyOpen(s) {
      var t :=
        if s.personaModal then PersonaModal
        else if s.personaEditModal then PersonaEditModal
        else if s.cwdModal then CwdModal
        else if s.contextEditor then ContextEditor
        else if s.contextEditorModal then ContextEditorModal
        else if s.agentOptionsMenu then AgentOptionsMenu
        else DockInfoModal;
      assert Get(s, t);
      assert t in OpenModals(s);
    }
    if OpenModals(s) != [] {
      assert Get(s, OpenModals(s)[0]);
    }
  }

  /**
   * Escape closes the open modal that comes last in declaration order and no
   * other; with nothing open it changes nothing.
   */
  lemma EscapeClosesLastOpen(s: Flags)
    ensures OpenModals(s) == [] ==> AfterEscape(s) == s
    ensures OpenModals(s) != [] ==>
      var t := Last(OpenModals(s));
      Get(s, t) && AfterEscape(s) == Closed(s, t)
      && forall u :: Get(s, u) && u != t ==> Position(u) < Position(t)
  {
    OpenModalsExact(s);
    var r := OpenModals(s);
    if r != [] {
      var t := Last(r);
      forall u | Get(s, u) && u != t ensures Position(u) < Position(t) {
        assert u in r;
        var i :| 0 <= i < |r| && r[i] == u;
        assert i < |r| - 1;
      }
    }
  }

  // ------------------------------------------------------------------ class

  class ModalStateService {
    var state: Flags

    constructor ()
      ensures state == InitialFlags
    {
      state := InitialFlags;
    }

    /** `isOpen(t)`. */
    function IsOpen(t: ModalType): (b: bool)
      reads this
      ensures b == Get(state, t)
    {
      Get(state, t)
    }

    /** `getOpenModals()`. */
    function GetOpenModals(): (r: seq<ModalType>)
      reads this
      ensures forall t :: t in r <==> Get(state, t)
    {
      OpenModalsExact(state);
      OpenModals(state)
    }

    /** `isAnyModalOpen()`. */
    function IsAnyModalOpen(): (b: bool)
      reads this
      ensures b <==> GetOpenModals() != []
    {
      AnyOpenIffOpenModals(state);
      AnyOpen(state)
    }

    method Open(t: ModalType)
      modifies this
      ensures state == Opened(old(state), t)
    {
      var shouldCloseMenu := t != AgentOptionsMenu && state.agentOptionsMenu;
      var next := Put(state, t, true);
      if shouldCloseMenu {
        next := next.(agentOptionsMenu := false);
      }
      state := next;
    }

    method Close(t: ModalType)
      modifies this
      ensures state == Closed(old(state), t)
    {
      state := Put(state, t, false);
    }

    method Toggle(t: ModalType)
      modifies this
      ensures state == Toggled(old(state), t)
    {
      if !Get(state, t) {
        Open(t);
      } else {
        Close(t);
      }
    }

    /** `closeAll()` and `reset()`: back to the initial record. */
    method CloseAll()
      modifies this
      ensures state == InitialFlags && !IsAnyModalOpen()
    {
      state := InitialFlags;
    }

    method HandleEscapeKey()
      modifies this
      ensures state == AfterEscape(old(state))
    {
      var openModals := GetOpenModals();
      if |openModals| > 0 {
        Close(openModals[|openModals| - 1]);
      }
    }
  }
}
