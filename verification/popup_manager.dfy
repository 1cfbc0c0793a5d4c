/**
 * The single overlay slot. Popups are abstract identities; the calls the
 * manager makes on them (`hide`, `resize`, `show`) are recorded in a log, and
 * each call is taken to complete before the next one starts.
 */
module Popups {
  import opened Wrappers

  type PopupId = nat

  datatype PopupCall = Hide(popup: PopupId) | Resize(popup: PopupId, width: int, height: int) | Show(popup: PopupId)

  /** The manager's state: the current popup, the last viewport size, and the calls made so far. */
  datatype Slot = Slot(current: Option<PopupId>, width: int, height: int, calls: seq<PopupCall>)

  const INITIAL: Slot := Slot(None, 0, 0, [])

  /** `resize`: always remembered, forwarded only to the current popup. */
  function ResizeSlot(s: Slot, width: int, height: int): (r: Slot)
    ensures r.current == s.current && r.width == width && r.height == height
    ensures s.current == None ==> r.calls == s.calls
    ensures s.current.Some? ==> r.calls == s.calls + [Resize(s.current.value, width, height)]
  {
    var forwarded := if s.current.Some? then [Resize(s.current.value, width, height)] else [];
    Slot(s.current, width, height, s.calls + forwarded)
  }

  /** `hideCurrent`: nothing on an empty slot, else hide the popup and empty the slot. */
  function HideCurrentSlot(s: Slot): (r: Slot)
    ensures r.current == None && r.width == s.width && r.height == s.height
    ensures s.current == None ==> r == s
    ensures s.current.Some? ==> r.calls == s.calls + [Hide(s.current.value)]
  {
    match s.current
    case None => s
    case Some(p) => Slot(None, s.width, s.height, s.calls + [Hide(p)])
  }

  /**
   * `show`: empty the slot first (hiding the current popup even when it is
   * `p` itself), then make `p` current, lay it out with the stored size and
   * reveal it.
   */
  function ShowSlot(s: Slot, p: PopupId): (r: Slot)
    ensures r.current == Some(p) && r.width == s.width && r.height == s.height
    ensures r.calls == HideCurrentSlot(s).calls + [Resize(p, s.width, s.height), Show(p)]
  {
    var cleared := HideCurrentSlot(s);
    Slot(Some(p), cleared.width, cleared.height, cleared.calls + [Resize(p, cleared.width, cleared.height), Show(p)])
  }

  /** Showing over a full slot hides the old popup before the new one is laid out and shown. */
  lemma ShowHidesCurrentFirst(s: Slot, p: PopupId)
    requires s.current.Some?
    ensures ShowSlot(s, p).calls == s.calls + [Hide(s.current.value), Resize(p, s.width, s.height), Show(p)]
  {
  }

  /** Re-showing the current popup still hides it and reveals it again: it is not a no-op. */
  lemma ReshowIsNotNoop(s: Slot, p: PopupId)
    requires s.current == Some(p)
    ensures ShowSlot(s, p).current == s.current
    ensures ShowSlot(s, p).calls == s.calls + [Hide(p), Resize(p, s.width, s.height), Show(p)]
  {
  }

  /** A size given while no popup is open is the one the next popup is laid out with. */
  lemma ResizeWhileHiddenThenShow(s: Slot, width: int, height: int, p: PopupId)
    requires s.current == None
    ensures ShowSlot(ResizeSlot(s, width, height), p).calls == s.calls + [Resize(p, width, height), Show(p)]
  {
  }

  /** Show followed by hide leaves the slot empty, the popup shown once and then hidden. */
  lemma ShowThenHideEmptiesSlot(s: Slot, p: PopupId)
    ensures var r := HideCurrentSlot(ShowSlot(s, p));
            r.current == None && r.calls == HideCurrentSlot(s).calls + [Resize(p, s.width, s.height), Show(p), Hide(p)]
  {
  }

  /** The most recent `Show` in a log. */
  function LastShown(calls: seq<PopupCall>): (r: Option<PopupId>)
    ensures r.Some? ==> Show(r.value) in calls
  {
    if calls == [] then None
    else if calls[|calls| - 1].Show? then Some(calls[|calls| - 1].popup)
    else LastShown(calls[..|calls| - 1])
  }

  /**
   * The slot invariant: an open popup is the one most recently shown, and
   * nothing has hidden it since.
   */
  ghost predicate Consistent(s: Slot)
  {
    s.current.Some? ==> LastShown(s.calls) == s.current && !(exists i :: LastShowIndex(s.calls) < i < |s.calls| && s.calls[i].Hide?)
  }

  /** Where the most recent `Show` sits in a log, or -1. */
  function LastShowIndex(calls: seq<PopupCall>): (i: int)
    ensures -1 <= i < |calls|
    ensures i >= 0 ==> calls[i].Show? && LastShown(calls) == Some(calls[i].popup)
    ensures i == -1 ==> LastShown(calls) == None
    ensures forall j :: i < j < |calls| ==> !calls[j].Show?
  {
    if calls == [] then -1
    else if calls[|calls| - 1].Show? then |calls| - 1
    else LastShowIndex(calls[..|calls| - 1])
  }

  lemma {:induction false} LastShowAfterAppend(calls: seq<PopupCall>, extra: seq<PopupCall>)
    requires forall j :: 0 <= j < |extra| ==> !extra[j].Show?
    ensures LastShowIndex(calls + extra) == LastShowIndex(calls)
    decreases |extra|
  {
    if extra != [] {
      var shorter := extra[..|extra| - 1];
      assert (calls + extra)[..|calls + extra| - 1] == calls + shorter;
      LastShowAfterAppend(calls, shorter);
    } else {
      assert calls + extra == calls;
    }
  }

  /** Every operation keeps the slot invariant. */
  lemma {:induction false} OperationsKeepConsistent(s: Slot, p: PopupId, width: int, height: int)
    requires Consistent(s)
    ensures Consistent(ResizeSlot(s, width, height))
    ensures Consistent(HideCurrentSlot(s))
    ensures Consistent(ShowSlot(s, p))
  {
    var r := ResizeSlot(s, width, height);
    if s.current.Some? {
      var extra := [Resize(s.current.value, width, height)];
      assert r.calls == s.calls + extra;
      LastShowAfterAppend(s.calls, extra);
      forall i | LastShowIndex(r.calls) < i < |r.calls|
        ensures !r.calls[i].Hide?
      {
        if i < |s.calls| {
          assert r.calls[i] == s.calls[i];
        }
      }
    }
    var shown := ShowSlot(s, p);
    assert LastShowIndex(shown.calls) == |shown.calls| - 1;
  }

  class PopupManager {
    var currentPopup: Option<PopupId>
    var width: int
    var height: int
    ghost var calls: seq<PopupCall>

    ghost function State(): Slot
      reads this
    {
      Slot(currentPopup, width, height, calls)
    }

    constructor ()
      ensures State() == INITIAL
    {
      currentPopup := None;
      width := 0;
      height := 0;
      calls := [];
    }

    method Resize(w: int, h: int)
      modifies this
      ensures State() == ResizeSlot(old(State()), w, h)
    {
      width := w;
      height := h;
      if currentPopup.Some? {
        calls := calls + [PopupCall.Resize(currentPopup.value, w, h)];
      }
    }

    method HideCurrent()
      modifies this
      ensures State() == HideCurrentSlot(old(State()))
    {
      if currentPopup == None {
        return;
      }
      calls := calls + [Hide(currentPopup.value)];
      currentPopup := None;
    }

    method Show(p: PopupId)
      modifies this
      ensures State() == ShowSlot(old(State()), p)
    {
      if currentPopup.Some? {
        HideCurrent();
      }
      currentPopup := Some(p);
      calls := calls + [PopupCall.Resize(p, width, height)];
      calls := calls + [PopupCall.Show(p)];
    }

    /** A pure query: true exactly when a popup holds the slot. */
    function IsPopupOpened(): (r: bool)
      reads this
      ensures r <==> State().current.Some?
    {
      currentPopup != None
    }
  }
}
