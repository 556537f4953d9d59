/**
 * The global modal store: whether the shared confirm/leave dialog is open,
 * its texts, and the confirm and cancel handlers it calls.
 */
module GlobalModal {
  import opened Wrappers

  datatype ModalType = Confirm | Leave
  datatype ConfirmType = Warning | Alert | Normal

  datatype Meta = Meta(title: string, content: string, cancelText: string, confirmText: string, confirmType: ConfirmType)

  /** The texts a caller may supply; an absent one keeps its current value. */
  datatype MetaPatch = MetaPatch(
    title: Option<string>, content: Option<string>, cancelText: Option<string>,
    confirmText: Option<string>, confirmType: Option<ConfirmType>)

  /** A caller's callback, known here only by identity. */
  datatype Handler = Handler(id: int)

  /** `onCancel`: the store's own default, or one a caller supplied. */
  datatype CancelHandler = DefaultCancel | CustomCancel(handler: Handler)

  const DefaultMeta := Meta("Bạn có muốn thực hiện không?", "", "Quay lại", "Đồng ý", Normal)
  const NoTexts := MetaPatch(None, None, None, None, None)

  /** `{ ...meta, ...patch }`: each supplied text replaces the current one. */
  function Overlay(meta: Meta, patch: MetaPatch): (r: Meta)
    ensures patch.title.Some? ==> r.title == patch.title.value
    ensures patch.title.None? ==> r.title == meta.title
    ensures patch.content.Some? ==> r.content == patch.content.value
    ensures patch.content.None? ==> r.content == meta.content
    ensures patch.cancelText.Some? ==> r.cancelText == patch.cancelText.value
    ensures patch.cancelText.None? ==> r.cancelText == meta.cancelText
    ensures patch.confirmText.Some? ==> r.confirmText == patch.confirmText.value
    ensures patch.confirmText.None? ==> r.confirmText == meta.confirmText
    ensures patch.confirmType.Some? ==> r.confirmType == patch.confirmType.value
    ensures patch.confirmType.None? ==> r.confirmType == meta.confirmType
  {
    Meta(patch.title.GetOr(meta.title), patch.content.GetOr(meta.content),
         patch.cancelText.GetOr(meta.cancelText), patch.confirmText.GetOr(meta.confirmText),
         patch.confirmType.GetOr(meta.confirmType))
  }

  /** Two patches applied in turn, as one: the later one's supplied texts win. */
  function Then(p: MetaPatch, q: MetaPatch): MetaPatch {
    MetaPatch(if q.title.Some? then q.title else p.title,
              if q.content.Some? then q.content else p.content,
              if q.cancelText.Some? then q.cancelText else p.cancelText,
              if q.confirmText.Some? then q.confirmText else p.confirmText,
              if q.confirmType.Some? then q.confirmType else p.confirmType)
  }

  /** Supplying no text keeps the meta as it is. */
  lemma OverlayNothing(meta: Meta)
    ensures Overlay(meta, NoTexts) == meta
  {
  }

  /** The same patch applied twice has the effect of applying it once. */
  lemma OverlayIdempotent(meta: Meta, patch: MetaPatch)
    ensures Overlay(Overlay(meta, patch), patch) == Overlay(meta, patch)
  {
  }

  /** Successive overlays compose. */
  lemma OverlayThen(meta: Meta, p: MetaPatch, q: MetaPatch)
    ensures Overlay(Overlay(meta, p), q) == Overlay(meta, Then(p, q))
  {
  }

  /** A patch that supplies every text gives exactly those texts, whatever was there before. */
  lemma FullPatchReplaces(meta: Meta, other: Meta)
    ensures Overlay(meta, MetaPatch(Some(other.title), Some(other.content), Some(other.cancelText),
                                     Some(other.confirmText), Some(other.confirmType))) == other
  {
  }

  class ModalStore {
    var isOpen: bool
    var modalType: ModalType
    var meta: Meta
    var onConfirm: Option<Handler>
    var onCancel: CancelHandler

    /** The initial state: closed, "confirm", the default texts, no confirm handler. */
    constructor ()
      ensures !isOpen && modalType == Confirm && meta == DefaultMeta
      ensures onConfirm == None && onCancel == DefaultCancel
    {
      isOpen := false;
      modalType := Confirm;
      meta := DefaultMeta;
      onConfirm := None;
      onCancel := DefaultCancel;
    }

    method SetOpen(open: bool, t: ModalType)
      modifies this
      ensures isOpen == open && modalType == t
      ensures meta == old(meta) && onConfirm == old(onConfirm) && onCancel == old(onCancel)
    {
      isOpen := open;
      modalType := t;
    }

    /**
     * `setMeta`: overlays the supplied texts, always replaces the confirm
     * handler (with none when none is supplied), and replaces the cancel
     * handler only when one is supplied.
     */
    method SetMeta(patch: MetaPatch, confirm: Option<Handler>, cancel: Option<Handler>)
      modifies this
      ensures meta == Overlay(old(meta), patch)
      ensures onConfirm == confirm
      ensures onCancel == (if cancel.Some? then CustomCancel(cancel.value) else old(onCancel))
      ensures isOpen == old(isOpen) && modalType == old(modalType)
    {
      meta := Overlay(meta, patch);
      onConfirm := confirm;
      if cancel.Some? {
        onCancel := CustomCancel(cancel.value);
      }
    }

    /**
     * Calling `onCancel`: the default closes the modal and keeps its type;
     * a supplied handler is the caller's code and is handed back to be run.
     */
    method Cancel() returns (delegated: Option<Handler>)
      modifies this
      ensures old(onCancel) == DefaultCancel ==> delegated == None && !isOpen
      ensures old(onCancel).CustomCancel? ==> delegated == Some(old(onCancel).handler) && isOpen == old(isOpen)
      ensures modalType == old(modalType) && meta == old(meta)
      ensures onConfirm == old(onConfirm) && onCancel == old(onCancel)
    {
      match onCancel
      case DefaultCancel =>
        isOpen := false;
        delegated := None;
      case CustomCancel(h) =>
        delegated := Some(h);
    }

    /** `openConfirmModal`: open as a confirmation, then apply the supplied texts and handlers. */
    method OpenConfirmModal(patch: MetaPatch, confirm: Option<Handler>, cancel: Option<Handler>)
      modifies this
      ensures isOpen && modalType == Confirm
      ensures meta == Overlay(old(meta), patch) && onConfirm == confirm
      ensures onCancel == (if cancel.Some? then CustomCancel(cancel.value) else old(onCancel))
    {
      SetOpen(true, Confirm);
      SetMeta(patch, confirm, cancel);
    }

    /** `openLeave`: open as a leave warning; it takes no confirm handler, so any earlier one is dropped. */
    method OpenLeave(patch: MetaPatch, cancel: Option<Handler>)
      modifies this
      ensures isOpen && modalType == Leave
      ensures meta == Overlay(old(meta), patch) && onConfirm == None
      ensures onCancel == (if cancel.Some? then CustomCancel(cancel.value) else old(onCancel))
    {
      SetOpen(true, Leave);
      SetMeta(patch, None, cancel);
    }
  }

  /** Opening a confirmation and cancelling it with the default handler closes it and keeps the texts. */
  method ConfirmThenDefaultCancel(store: ModalStore, patch: MetaPatch, confirm: Option<Handler>)
    requires store.onCancel == DefaultCancel
    modifies store
    ensures !store.isOpen && store.modalType == Confirm
    ensures store.meta == Overlay(old(store.meta), patch)
  {
    store.OpenConfirmModal(patch, confirm, None);
    var delegated := store.Cancel();
  }
}
