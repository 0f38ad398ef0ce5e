/**
 * `TxDeeplinkCoordinator`: an immutable, ordered list of deep-link handlers. Both operations
 * search the list for the first handler whose `canOpenURL` accepts the URL.
 *
 * A handler is any value of type `H`; its `canOpenURL` is the function `accepts`. The one
 * `openURL` call that `handleURL` makes is reported as the index of the handler it went to.
 */
module DeeplinkCoordinator {
  import opened Wrappers
  import opened Foundation

  datatype Coordinator<H> = Coordinator(handlers: seq<H>)

  /** `first(where:)` over `handlers[from..]`: the index of the first accepting handler. */
  function FirstAccepting<H>(handlers: seq<H>, accepts: (H, Url) -> bool, url: Url, from: nat): (r: Option<nat>)
    requires from <= |handlers|
    ensures r.Some? ==> from <= r.value < |handlers| && accepts(handlers[r.value], url)
    ensures r.Some? ==> forall j :: from <= j < r.value ==> !accepts(handlers[j], url)
    ensures r.None? ==> forall j :: from <= j < |handlers| ==> !accepts(handlers[j], url)
    decreases |handlers| - from
  {
    if from == |handlers| then None
    else if accepts(handlers[from], url) then Some(from)
    else FirstAccepting(handlers, accepts, url, from + 1)
  }

  /** The outcome of `handleURL`: its return value and the handler whose `openURL` ran. */
  datatype Dispatch = Dispatch(handled: bool, chosen: Option<nat>)

  /**
   * `handleURL`: opens the first accepting handler and returns true; returns false and opens
   * nothing when no handler accepts.
   */
  function HandleUrl<H>(c: Coordinator<H>, accepts: (H, Url) -> bool, url: Url): (d: Dispatch)
    ensures d.handled <==> d.chosen.Some?
    ensures d.chosen.Some? ==>
      var i := d.chosen.value;
      i < |c.handlers| && accepts(c.handlers[i], url)
      && forall j :: 0 <= j < i ==> !accepts(c.handlers[j], url)
    ensures d.chosen.None? ==> forall j :: 0 <= j < |c.handlers| ==> !accepts(c.handlers[j], url)
  {
    match FirstAccepting(c.handlers, accepts, url, 0)
    case None => Dispatch(false, None)
    case Some(i) => Dispatch(true, Some(i))
  }

  /** `canOpenURL`: some handler accepts the URL. */
  function CanOpenUrl<H>(c: Coordinator<H>, accepts: (H, Url) -> bool, url: Url): (r: bool)
    ensures r <==> exists j :: 0 <= j < |c.handlers| && accepts(c.handlers[j], url)
  {
    FirstAccepting(c.handlers, accepts, url, 0).Some?
  }

  /** `handleURL`'s result is always `canOpenURL`'s. */
  lemma HandleAgreesWithCanOpen<H>(c: Coordinator<H>, accepts: (H, Url) -> bool, url: Url)
    ensures HandleUrl(c, accepts, url).handled == CanOpenUrl(c, accepts, url)
  {
  }

  /** The first accepting handler is the one opened, whatever the later handlers say. */
  lemma FirstAcceptingIsOpened<H>(c: Coordinator<H>, accepts: (H, Url) -> bool, url: Url, i: nat)
    requires i < |c.handlers| && accepts(c.handlers[i], url)
    requires forall j :: 0 <= j < i ==> !accepts(c.handlers[j], url)
    ensures HandleUrl(c, accepts, url) == Dispatch(true, Some(i))
  {
  }

  /** A coordinator holding one always-accepting handler handles every URL with it. */
  lemma AlwaysAcceptingHandlerOpened<H>(h: H, url: Url)
    ensures HandleUrl(Coordinator([h]), (_: H, _: Url) => true, url) == Dispatch(true, Some(0))
  {
  }
}
