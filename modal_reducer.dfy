/** The redux reducer behind the inquiry modal (src/reducer/reducer.js):
    a flag `isOpen` driven by the actions "open" and "close".  The reducer
    returns a fresh object by spreading the old one, so every other field of
    the state survives; `extra` stands for those fields. */
module ModalReducer {
  import opened Wrappers

  datatype ModalState = ModalState(isOpen: bool, extra: map<string, string>)

  datatype Action = Action(kind: string)

  /** `initialState`: the modal starts closed. */
  const Initial: ModalState := ModalState(false, map[])

  /** `reducer(state, action)` on a defined state. */
  function Reduce(s: ModalState, a: Action): (r: ModalState)
    ensures r.extra == s.extra
    ensures a.kind == "open" ==> r.isOpen
    ensures a.kind == "close" ==> !r.isOpen
    ensures a.kind != "open" && a.kind != "close" ==> r == s
  {
    match a.kind
    case "open" => s.(isOpen := true)
    case "close" => s.(isOpen := false)
    case _ => s
  }

  /** `reducer(state = initialState, action)`: redux's first call passes no state. */
  function Reducer(state: Option<ModalState>, a: Action): (r: ModalState)
    ensures state.None? ==> r.extra == map[] && (r.isOpen <==> a.kind == "open")
  {
    Reduce(state.GetOr(Initial), a)
  }

  /** The store after dispatching `acts` in order. */
  function Run(s: ModalState, acts: seq<Action>): ModalState
    decreases |acts|
  {
    if acts == [] then s else Run(Reduce(s, acts[0]), acts[1..])
  }

  /** An independent reading of the flag: the last "open" or "close" in the
      sequence, if any. */
  function LastSwitch(acts: seq<Action>): Option<bool>
    decreases |acts|
  {
    if acts == [] then None
    else
      var a := acts[|acts| - 1];
      if a.kind == "open" then Some(true)
      else if a.kind == "close" then Some(false)
      else LastSwitch(acts[..|acts| - 1])
  }

  /** "open" and "close" are idempotent. */
  lemma SwitchIdempotent(s: ModalState, a: Action)
    requires a.kind == "open" || a.kind == "close"
    ensures Reduce(Reduce(s, a), a) == Reduce(s, a)
  {
  }

  lemma {:induction false} RunSnoc(s: ModalState, acts: seq<Action>, a: Action)
    ensures Run(s, acts + [a]) == Reduce(Run(s, acts), a)
    decreases |acts|
  {
    if acts == [] {
      assert acts + [a] == [a];
    } else {
      assert (acts + [a])[1..] == acts[1..] + [a];
      RunSnoc(Reduce(s, acts[0]), acts[1..], a);
    }
  }

  /** After any sequence of actions the modal is open exactly when the last
      "open"/"close" among them was "open"; with neither, it keeps the flag
      it started with. */
  lemma {:induction false} RunFollowsLastSwitch(s: ModalState, acts: seq<Action>)
    ensures Run(s, acts).isOpen == LastSwitch(acts).GetOr(s.isOpen)
    ensures Run(s, acts).extra == s.extra
    decreases |acts|
  {
    if acts != [] {
      var init := acts[..|acts| - 1];
      var a := acts[|acts| - 1];
      assert acts == init + [a];
      RunSnoc(s, init, a);
      RunFollowsLastSwitch(s, init);
    }
  }

  /** From the initial state: open iff the last switch was "open", closed
      if there was none. */
  lemma InitialRun(acts: seq<Action>)
    ensures Run(Initial, acts).isOpen <==> LastSwitch(acts) == Some(true)
  {
    RunFollowsLastSwitch(Initial, acts);
  }
}
