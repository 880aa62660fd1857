/// The state of the per-index details popup: whether it is shown, the
/// details last delivered, the loading flag, an error and the scroll offset.
module DetailsPopup {
  import opened Base
  import opened Models

  /// What the background details fetch delivers.
  type DetailsResult = Result<IndexDetails, string>

  const DETAILS_DISCONNECTED: string := "Details fetch disconnected"

  class DetailsState {
    var showPopup: bool
    var data: Option<IndexDetails>
    var loading: bool
    var error: Option<string>
    var scroll: nat

    constructor ()
      ensures !showPopup && data == None && !loading && error == None && scroll == 0
    {
      showPopup := false;
      data := None;
      loading := false;
      error := None;
      scroll := 0;
    }

    /// Opens the popup in its loading state. There is no in-flight guard: a
    /// second call while loading starts another fetch. The background request
    /// itself is not part of this model.
    method Fetch()
      modifies this
      ensures showPopup && loading && error == None && data == None && scroll == 0
    {
      showPopup := true;
      loading := true;
      error := None;
      data := None;
      scroll := 0;
    }

    method Close()
      modifies this
      ensures !showPopup && data == None && error == None && !loading && scroll == 0
    {
      showPopup := false;
      data := None;
      error := None;
      loading := false;
      scroll := 0;
    }

    /// Drains the mailbox once. The popup flag and the scroll offset are
    /// never touched, so a result arriving after `Close` is stored unseen.
    method Poll(mailbox: Mailbox<DetailsResult>)
      modifies this
      ensures showPopup == old(showPopup) && scroll == old(scroll)
      ensures mailbox.Empty? ==>
        data == old(data) && loading == old(loading) && error == old(error)
      ensures mailbox.Delivered? && mailbox.content.Ok? ==>
        !loading && data == Some(mailbox.content.value) && error == None
      ensures mailbox.Delivered? && mailbox.content.Err? ==>
        !loading && data == old(data) && error == Some(mailbox.content.error)
      ensures mailbox.Disconnected? ==>
        !loading && data == old(data) && error == Some(DETAILS_DISCONNECTED)
    {
      match mailbox
      case Delivered(result) =>
        loading := false;
        match result {
          case Ok(details) =>
            data := Some(details);
            error := None;
          case Err(e) =>
            error := Some(e);
        }
      case Empty =>
      case Disconnected =>
        loading := false;
        error := Some(DETAILS_DISCONNECTED);
    }

    method ScrollUp()
      modifies this
      ensures scroll == SatSub(old(scroll), 1)
      ensures showPopup == old(showPopup) && data == old(data) && loading == old(loading) && error == old(error)
    {
      scroll := SatSub(scroll, 1);
    }

    method ScrollDown()
      modifies this
      ensures scroll == SatAdd(old(scroll), 1)
      ensures showPopup == old(showPopup) && data == old(data) && loading == old(loading) && error == old(error)
    {
      scroll := SatAdd(scroll, 1);
    }

    method ScrollPageUp(pageSize: nat)
      modifies this
      ensures scroll == SatSub(old(scroll), pageSize)
      ensures showPopup == old(showPopup) && data == old(data) && loading == old(loading) && error == old(error)
    {
      scroll := SatSub(scroll, pageSize);
    }

    method ScrollPageDown(pageSize: nat)
      modifies this
      ensures scroll == SatAdd(old(scroll), pageSize)
      ensures showPopup == old(showPopup) && data == old(data) && loading == old(loading) && error == old(error)
    {
      scroll := SatAdd(scroll, pageSize);
    }
  }

  /// Scrolling down then up returns to the same offset below the maximum,
  /// and scrolling up never goes below zero.
  lemma ScrollDownUpRestores(x: nat)
    requires x < USIZE_MAX
    ensures SatSub(SatAdd(x, 1), 1) == x
    ensures SatSub(0, 1) == 0
  {
  }
}
