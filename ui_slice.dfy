/**
 * The donor app's interface store: theme, sidebar, toasts, modals and the
 * global loading and error flags.
 */
module UiSlice {
  import opened Common

  datatype Toast = Toast(id: string, kind: string, title: string, message: Option<string>, duration: Option<int>)

  /** A toast as `addToast` receives it, without an id. */
  datatype ToastInput = ToastInput(kind: string, title: string, message: Option<string>, duration: Option<int>)

  /** A modal's entry; its `data` is kept as an optional string. */
  datatype Modal = Modal(id: string, isOpen: bool, data: Option<string>)

  function DigitChar(d: nat): char
    requires d < 10
  {
    ('0' as int + d) as char
  }

  /** `Number.prototype.toString()` for a natural: its decimal digits. */
  function Decimal(n: nat): (r: string)
    ensures |r| >= 1
    ensures forall i :: 0 <= i < |r| ==> '0' <= r[i] <= '9'
    decreases n
  {
    if n < 10 then [DigitChar(n)] else Decimal(n / 10) + [DigitChar(n % 10)]
  }

  /** The toast `addToast` stores at clock reading `now`: its id is the
      decimal millisecond count, `Date.now().toString()`. */
  function ToastOf(t: ToastInput, now: nat): (r: Toast)
    ensures r.id == Decimal(now)
    ensures r.kind == t.kind && r.title == t.title && r.message == t.message && r.duration == t.duration
  {
    Toast(Decimal(now), t.kind, t.title, t.message, t.duration)
  }

  /** `toasts.filter((t) => t.id !== id)`. */
  function WithoutToast(ts: seq<Toast>, id: string): (r: seq<Toast>)
    ensures |r| <= |ts|
    ensures forall x :: x in r <==> x in ts && x.id != id
  {
    Filter(ts, (t: Toast) => t.id != id)
  }

  /** Two toasts added within the same millisecond share an id, so removing
      one removes both: what is left is the list from before either. */
  lemma SameMillisecond(ts: seq<Toast>, a: ToastInput, b: ToastInput, now: nat)
    ensures ToastOf(a, now).id == ToastOf(b, now).id
    ensures WithoutToast(ts + [ToastOf(a, now)] + [ToastOf(b, now)], ToastOf(a, now).id) ==
            WithoutToast(ts, Decimal(now))
  {
    var p := (t: Toast) => t.id != Decimal(now);
    FilterAppend(ts + [ToastOf(a, now)], [ToastOf(b, now)], p);
    FilterAppend(ts, [ToastOf(a, now)], p);
    assert Filter([ToastOf(b, now)], p) == [];
    assert Filter([ToastOf(a, now)], p) == [];
  }

  /** `if (modals[id]) modals[id].isOpen = false`. */
  function ModalClosed(modals: map<string, Modal>, id: string): (r: map<string, Modal>)
    ensures r.Keys == modals.Keys
    ensures id in modals ==> r[id] == modals[id].(isOpen := false)
    ensures forall k :: k in modals && k != id ==> r[k] == modals[k]
    ensures id !in modals ==> r == modals
  {
    if id in modals then modals[id := modals[id].(isOpen := false)] else modals
  }

  /** Opening then closing a modal leaves an entry that is closed and keeps
      the data it was opened with; closing twice is closing once. */
  lemma OpenThenClose(modals: map<string, Modal>, id: string, data: Option<string>)
    ensures ModalClosed(modals[id := Modal(id, true, data)], id) == modals[id := Modal(id, false, data)]
    ensures ModalClosed(ModalClosed(modals, id), id) == ModalClosed(modals, id)
  {
  }

  class UiState {
    var theme: string
    var sidebarOpen: bool
    var toasts: seq<Toast>
    var modals: map<string, Modal>
    var isLoading: bool
    var globalError: Option<string>

    /** `initialState`. The stored theme, given as `storedTheme`, is taken
        unchecked whenever it is not empty; otherwise the theme is `system`. */
    constructor (storedTheme: Option<string>)
      ensures theme == OrElse(storedTheme, "system")
      ensures sidebarOpen && toasts == [] && modals == map[] && !isLoading && globalError.None?
    {
      theme := OrElse(storedTheme, "system");
      sidebarOpen, toasts, modals := true, [], map[];
      isLoading, globalError := false, None;
    }

    method SetTheme(t: string)
      modifies this`theme
      ensures theme == t
    {
      theme := t;
    }

    method ToggleSidebar()
      modifies this`sidebarOpen
      ensures sidebarOpen == !old(sidebarOpen)
    {
      sidebarOpen := !sidebarOpen;
    }

    method SetSidebarOpen(b: bool)
      modifies this`sidebarOpen
      ensures sidebarOpen == b
    {
      sidebarOpen := b;
    }

    /** `addToast` at clock reading `now`: exactly one toast is appended. */
    method AddToast(t: ToastInput, now: nat)
      modifies this`toasts
      ensures toasts == old(toasts) + [ToastOf(t, now)]
    {
      toasts := toasts + [ToastOf(t, now)];
    }

    method RemoveToast(id: string)
      modifies this`toasts
      ensures toasts == WithoutToast(old(toasts), id)
    {
      toasts := Filter(toasts, (t: Toast) => t.id != id);
    }

    method ClearToasts()
      modifies this`toasts
      ensures toasts == []
    {
      toasts := [];
    }

    /** `openModal`: the entry is (re)written, open, with the given data. */
    method OpenModal(id: string, data: Option<string>)
      modifies this`modals
      ensures modals == old(modals)[id := Modal(id, true, data)]
    {
      modals := modals[id := Modal(id, true, data)];
    }

    /** `closeModal`: an existing entry is closed, data kept; an unknown id
        changes nothing. */
    method CloseModal(id: string)
      modifies this`modals
      ensures modals == ModalClosed(old(modals), id)
    {
      if id in modals {
        modals := modals[id := modals[id].(isOpen := false)];
      }
    }

    method SetGlobalLoading(b: bool)
      modifies this`isLoading
      ensures isLoading == b
    {
      isLoading := b;
    }

    method SetGlobalError(e: Option<string>)
      modifies this`globalError
      ensures globalError == e
    {
      globalError := e;
    }
  }

  /** Toggling the sidebar twice restores it. */
  method ToggleTwice(ui: UiState)
    modifies ui`sidebarOpen
    ensures ui.sidebarOpen == old(ui.sidebarOpen)
  {
    ui.ToggleSidebar();
    ui.ToggleSidebar();
  }
}
