/**
 * The modal shell: its keydown and backdrop-click handlers, and the effect
 * that, on mount and whenever onClose changes, hides the page's scroll and
 * registers a keydown listener on the window, and on cleanup removes that
 * listener again.
 */
module Modal {
  import opened Wrappers

  /** The identity of an onClose function value. */
  type Callback = nat

  /** A keydown handler: one closure per run of the effect, over that run's onClose. */
  datatype Listener = KeyDownHandler(id: nat, onClose: Callback)

  /** The key handler: Escape calls onClose once, any other key calls nothing. */
  function HandleKeyDown(h: Listener, code: string): (r: seq<Callback>)
    ensures code == "Escape" ==> r == [h.onClose]
    ensures code != "Escape" ==> r == []
  {
    if code == "Escape" then [h.onClose] else []
  }

  /** The onClose calls one keydown event causes, listener by listener in registration order. */
  function KeyDownCalls(ls: seq<Listener>, code: string): seq<Callback>
    decreases |ls|
  {
    if ls == [] then []
    else KeyDownCalls(ls[..|ls| - 1], code) + HandleKeyDown(ls[|ls| - 1], code)
  }

  /** Only Escape makes any listener call anything. */
  lemma {:induction false} OnlyEscapeCalls(ls: seq<Listener>, code: string)
    requires code != "Escape"
    ensures KeyDownCalls(ls, code) == []
    decreases |ls|
  {
    if ls != [] {
      OnlyEscapeCalls(ls[..|ls| - 1], code);
    }
  }

  /** Escape calls every registered listener's onClose once, in registration order. */
  lemma {:induction false} EscapeCallsEach(ls: seq<Listener>)
    ensures |KeyDownCalls(ls, "Escape")| == |ls|
    ensures forall i :: 0 <= i < |ls| ==> KeyDownCalls(ls, "Escape")[i] == ls[i].onClose
    decreases |ls|
  {
    if ls != [] {
      EscapeCallsEach(ls[..|ls| - 1]);
    }
  }

  /** The nodes a click can land on: the backdrop, the content box, or something inside it. */
  datatype Node = Backdrop | Content | Inside(index: nat)

  /** A click as the backdrop's handler sees it. */
  datatype MouseEvent = MouseEvent(target: Node, currentTarget: Node)

  /** A click reaches the backdrop's handler wherever it lands, by bubbling. */
  function ClickAt(target: Node): MouseEvent
  {
    MouseEvent(target, Backdrop)
  }

  /** The backdrop handler: onClose only when the click landed on the backdrop itself. */
  function HandleBackdropClick(e: MouseEvent, onClose: Callback): (r: seq<Callback>)
    ensures r == [onClose] <==> e.target == e.currentTarget
    ensures r != [onClose] ==> r == []
  {
    if e.target == e.currentTarget then [onClose] else []
  }

  /** A click inside the content box never closes the modal; one on the backdrop does. */
  lemma ClickClosesOnlyOnBackdrop(target: Node, onClose: Callback)
    ensures HandleBackdropClick(ClickAt(target), onClose) == (if target == Backdrop then [onClose] else [])
  {
  }

  /** The listeners left after removing one: every other listener, in order. */
  function Without(ls: seq<Listener>, h: Listener): (r: seq<Listener>)
    ensures forall l :: l in r <==> l in ls && l != h
    ensures |r| <= |ls|
    decreases |ls|
  {
    if ls == [] then []
    else if ls[0] == h then Without(ls[1..], h)
    else [ls[0]] + Without(ls[1..], h)
  }

  /** No listener appears twice. */
  predicate Distinct(ls: seq<Listener>)
  {
    forall i, j :: 0 <= i < j < |ls| ==> ls[i] != ls[j]
  }

  /** Removing a listener from distinct listeners leaves them distinct. */
  lemma {:induction false} WithoutKeepsDistinct(ls: seq<Listener>, h: Listener)
    requires Distinct(ls)
    ensures Distinct(Without(ls, h))
    decreases |ls|
  {
    if ls != [] {
      assert Distinct(ls[1..]) by {
        forall i, j | 0 <= i < j < |ls[1..]| ensures ls[1..][i] != ls[1..][j] {
          assert ls[1..][i] == ls[i + 1] && ls[1..][j] == ls[j + 1];
        }
      }
      WithoutKeepsDistinct(ls[1..], h);
      if ls[0] != h {
        var rest := Without(ls[1..], h);
        assert ls[0] !in ls[1..] by {
          forall k | 0 <= k < |ls[1..]| ensures ls[1..][k] != ls[0] {
            assert ls[1..][k] == ls[k + 1];
          }
        }
        assert ls[0] !in rest;
        forall i, j | 0 <= i < j < |[ls[0]] + rest| ensures ([ls[0]] + rest)[i] != ([ls[0]] + rest)[j] {
          if i == 0 {
            assert ([ls[0]] + rest)[j] == rest[j - 1];
          } else {
            assert ([ls[0]] + rest)[i] == rest[i - 1] && ([ls[0]] + rest)[j] == rest[j - 1];
          }
        }
      }
    }
  }

  /**
   * The page-level state the modal touches: the body's overflow style, the
   * window's keydown listeners, and (as a record) every onClose call made.
   */
  class Document {
    var overflow: string
    var keydownListeners: seq<Listener>
    var calls: seq<Callback>
    var nextId: nat

    /** Each listener is registered once, and every closure made so far has a smaller id. */
    ghost predicate Valid()
      reads this
    {
      && Distinct(keydownListeners)
      && (forall l :: l in keydownListeners ==> l.id < nextId)
    }

    constructor (overflow: string)
      ensures Valid()
      ensures this.overflow == overflow && keydownListeners == [] && calls == []
    {
      this.overflow := overflow;
      keydownListeners, calls, nextId := [], [], 0;
    }

    /** A new closure over onClose, distinct from every earlier one. */
    method NewKeyDownHandler(onClose: Callback) returns (h: Listener)
      requires Valid()
      modifies this
      ensures Valid()
      ensures h == KeyDownHandler(old(nextId), onClose)
      ensures h !in keydownListeners
      ensures nextId == old(nextId) + 1
      ensures overflow == old(overflow) && keydownListeners == old(keydownListeners) && calls == old(calls)
    {
      h := KeyDownHandler(nextId, onClose);
      nextId := nextId + 1;
    }

    /** addEventListener: a listener already registered is not added twice. */
    method AddKeyDownListener(h: Listener)
      requires Valid()
      requires h.id < nextId
      modifies this
      ensures Valid()
      ensures keydownListeners == if h in old(keydownListeners) then old(keydownListeners) else old(keydownListeners) + [h]
      ensures overflow == old(overflow) && calls == old(calls) && nextId == old(nextId)
    {
      if h !in keydownListeners {
        keydownListeners := keydownListeners + [h];
      }
    }

    /** removeEventListener: the listener goes, the others stay in order. */
    method RemoveKeyDownListener(h: Listener)
      requires Valid()
      modifies this
      ensures Valid()
      ensures keydownListeners == Without(old(keydownListeners), h)
      ensures overflow == old(overflow) && calls == old(calls) && nextId == old(nextId)
    {
      var i := 0;
      var kept: seq<Listener> := [];
      while i < |keydownListeners|
        invariant 0 <= i <= |keydownListeners|
        invariant Without(keydownListeners, h) == kept + Without(keydownListeners[i..], h)
      {
        assert keydownListeners[i..][1..] == keydownListeners[i + 1..];
        if keydownListeners[i] != h {
          kept := kept + [keydownListeners[i]];
        }
        i := i + 1;
      }
      assert keydownListeners[i..] == [];
      assert kept == Without(keydownListeners, h);
      WithoutKeepsDistinct(keydownListeners, h);
      assert Distinct(kept);
      keydownListeners := kept;
    }

    /** The window dispatches a keydown to every registered listener, in order. */
    method DispatchKeyDown(code: string)
      requires Valid()
      modifies this
      ensures Valid()
      ensures calls == old(calls) + KeyDownCalls(old(keydownListeners), code)
      ensures overflow == old(overflow) && keydownListeners == old(keydownListeners) && nextId == old(nextId)
    {
      var i := 0;
      var made: seq<Callback> := [];
      while i < |keydownListeners|
        invariant 0 <= i <= |keydownListeners|
        invariant made == KeyDownCalls(keydownListeners[..i], code)
      {
        assert keydownListeners[..i + 1][..i] == keydownListeners[..i];
        made := made + HandleKeyDown(keydownListeners[i], code);
        i := i + 1;
      }
      assert keydownListeners[..i] == keydownListeners;
      calls := calls + made;
    }
  }

  /** One mounted modal on a document, with the listener its effect registered. */
  class ModalComponent {
    const doc: Document
    var onClose: Callback
    var handler: Option<Listener>   // the listener of the effect's latest run; None once cleaned up

    ghost predicate Valid()
      reads this, doc
    {
      && doc.Valid()
      && (handler.Some? ==> handler.value in doc.keydownListeners && handler.value.onClose == onClose)
    }

    /** Mounting runs the effect: hide the scroll and register a new keydown listener. */
    constructor Mount(doc: Document, onClose: Callback)
      requires doc.Valid()
      modifies doc
      ensures Valid() && this.doc == doc && this.onClose == onClose && handler.Some?
      ensures handler.value !in old(doc.keydownListeners)
      ensures doc.overflow == "hidden"
      ensures doc.keydownListeners == old(doc.keydownListeners) + [handler.value]
      ensures doc.calls == old(doc.calls)
    {
      this.doc := doc;
      this.onClose := onClose;
      var h := doc.NewKeyDownHandler(onClose);
      doc.overflow := "hidden";
      doc.AddKeyDownListener(h);
      handler := Some(h);
    }

    /** The effect's cleanup: remove its listener; nothing else changes, overflow included. */
    method Cleanup()
      requires Valid() && handler.Some?
      modifies this, doc
      ensures Valid() && handler == None && onClose == old(onClose)
      ensures doc.keydownListeners == Without(old(doc.keydownListeners), old(handler.value))
      ensures old(handler.value) !in doc.keydownListeners
      ensures doc.overflow == old(doc.overflow) && doc.calls == old(doc.calls)
    {
      doc.RemoveKeyDownListener(handler.value);
      handler := None;
    }

    /**
     * A render with a new onClose: when it differs, React runs the cleanup
     * and then the effect again.
     */
    method Rerender(newOnClose: Callback)
      requires Valid() && handler.Some?
      modifies this, doc
      ensures Valid() && onClose == newOnClose && handler.Some?
      ensures newOnClose == old(onClose) ==> handler == old(handler) && doc.keydownListeners == old(doc.keydownListeners)
      ensures newOnClose != old(onClose) ==>
        && handler.value !in old(doc.keydownListeners)
        && doc.keydownListeners == Without(old(doc.keydownListeners), old(handler.value)) + [handler.value]
        && doc.overflow == "hidden"
      ensures newOnClose == old(onClose) ==> doc.overflow == old(doc.overflow)
      ensures doc.calls == old(doc.calls)
    {
      if newOnClose != onClose {
        Cleanup();
        onClose := newOnClose;
        var h := doc.NewKeyDownHandler(newOnClose);
        doc.overflow := "hidden";
        doc.AddKeyDownListener(h);
        handler := Some(h);
      }
    }

    /** A click that reaches the backdrop's handler. */
    method ClickBackdrop(target: Node)
      requires Valid()
      modifies doc
      ensures Valid()
      ensures doc.calls == old(doc.calls) + HandleBackdropClick(ClickAt(target), onClose)
      ensures doc.overflow == old(doc.overflow) && doc.keydownListeners == old(doc.keydownListeners)
    {
      doc.calls := doc.calls + HandleBackdropClick(ClickAt(target), onClose);
    }
  }

  /** With the modal mounted on a quiet page, Escape calls onClose exactly once. */
  method EscapeClosesOnce(onClose: Callback) returns (calls: seq<Callback>)
    ensures calls == [onClose]
  {
    var doc := new Document("");
    var modal := new ModalComponent.Mount(doc, onClose);
    doc.DispatchKeyDown("Escape");
    calls := doc.calls;
  }

  /** Any other key calls nothing. */
  method OtherKeyDoesNothing(onClose: Callback, code: string) returns (calls: seq<Callback>)
    requires code != "Escape"
    ensures calls == []
  {
    var doc := new Document("");
    var modal := new ModalComponent.Mount(doc, onClose);
    doc.DispatchKeyDown(code);
    OnlyEscapeCalls(doc.keydownListeners, code);
    calls := doc.calls;
  }

  /** After unmounting, Escape no longer calls onClose. */
  method EscapeAfterUnmount(onClose: Callback) returns (calls: seq<Callback>, listeners: seq<Listener>)
    ensures calls == [] && listeners == []
  {
    var doc := new Document("");
    var modal := new ModalComponent.Mount(doc, onClose);
    modal.Cleanup();
    doc.DispatchKeyDown("Escape");
    calls, listeners := doc.calls, doc.keydownListeners;
  }

  /** Re-running the effect for a new onClose leaves one listener, which calls the new onClose. */
  method RerunKeepsOneListener(first: Callback, second: Callback) returns (listeners: nat, calls: seq<Callback>)
    ensures listeners == 1
    ensures calls == [second]
  {
    var doc := new Document("");
    var modal := new ModalComponent.Mount(doc, first);
    ghost var h1 := modal.handler.value;
    modal.Rerender(second);
    if second != first {
      assert Without([h1], h1) == [];
    }
    listeners := |doc.keydownListeners|;
    doc.DispatchKeyDown("Escape");
    calls := doc.calls;
  }

  /** A click on the content, or inside it, leaves the modal open; one on the backdrop closes it. */
  method ClickScenario(onClose: Callback, inside: Node) returns (fromInside: seq<Callback>, fromBackdrop: seq<Callback>)
    requires inside != Backdrop
    ensures fromInside == [] && fromBackdrop == [onClose]
  {
    var doc := new Document("");
    var modal := new ModalComponent.Mount(doc, onClose);
    modal.ClickBackdrop(inside);
    fromInside := doc.calls;
    modal.ClickBackdrop(Backdrop);
    fromBackdrop := doc.calls[|fromInside|..];
  }

  /** The page's overflow after the modal has been open and closed: hidden, whatever it was before. */
  method OverflowAfterClose(before: string) returns (during: string, after: string)
    ensures during == "hidden"
    ensures after == "hidden"
  {
    var doc := new Document(before);
    var modal := new ModalComponent.Mount(doc, 0);
    during := doc.overflow;
    modal.Cleanup();
    after := doc.overflow;
  }

  /**
   * The effect that gives the page its scroll back: remember the overflow
   * found at setup, and put it back in the cleanup.
   */
  class RestoringModal {
    const doc: Document
    const onClose: Callback
    var handler: Option<Listener>
    var savedOverflow: string

    ghost predicate Valid()
      reads this, doc
    {
      && doc.Valid()
      && (handler.Some? ==> handler.value in doc.keydownListeners && handler.value.onClose == onClose)
    }

    constructor Mount(doc: Document, onClose: Callback)
      requires doc.Valid()
      modifies doc
      ensures Valid() && this.doc == doc && handler.Some?
      ensures savedOverflow == old(doc.overflow) && doc.overflow == "hidden"
      ensures doc.keydownListeners == old(doc.keydownListeners) + [handler.value]
      ensures doc.calls == old(doc.calls)
    {
      this.doc := doc;
      this.onClose := onClose;
      savedOverflow := doc.overflow;
      var h := doc.NewKeyDownHandler(onClose);
      doc.overflow := "hidden";
      doc.AddKeyDownListener(h);
      handler := Some(h);
    }

    method Cleanup()
      requires Valid() && handler.Some?
      modifies this, doc
      ensures Valid() && handler == None
      ensures doc.keydownListeners == Without(old(doc.keydownListeners), old(handler.value))
      ensures doc.overflow == old(savedOverflow) && doc.calls == old(doc.calls)
    {
      doc.RemoveKeyDownListener(handler.value);
      doc.overflow := savedOverflow;
      handler := None;
    }
  }

  /** With the restoring effect the overflow after closing is what it was before opening. */
  method OverflowAfterCloseRestored(before: string) returns (during: string, after: string)
    ensures during == "hidden"
    ensures after == before
  {
    var doc := new Document(before);
    var modal := new RestoringModal.Mount(doc, 0);
    during := doc.overflow;
    modal.Cleanup();
    after := doc.overflow;
  }
}
