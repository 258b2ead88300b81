/**
  Notification states of stream and future ends
  (src/component_async_state.c). A false result leaves the state unchanged.
 */
module AsyncState {
  import opened Common

  const COPY_COMPLETED := 0
  const COPY_DROPPED := 1
  const COPY_CANCELLED := 2
  const COPY_MAX_LENGTH := 0x0fff_ffff

  datatype Phase = Idle | Copying | Cancelling | Done

  datatype EndpointState = EndpointState(
    phase: Phase,
    progress: nat,
    future: bool,
    peerDropped: bool,
    pending: bool)

  const ZERO := EndpointState(Idle, 0, false, false, false)

  function Begun(s: EndpointState): Option<EndpointState> {
    if s.phase != Idle || (s.pending && !s.peerDropped) then None
    else Some(s.(phase := Copying, progress := 0))
  }

  predicate CanNotify(s: EndpointState, progress: nat) {
    && (s.phase.Copying? || s.phase.Cancelling? || (s.phase.Idle? && s.peerDropped))
    && progress <= COPY_MAX_LENGTH
    && (s.phase.Idle? ==> progress == 0)
    && (s.future ==> progress <= 1 && (progress == 0 ==> s.peerDropped || s.phase.Cancelling?))
    && (s.pending ==> s.progress <= progress)
  }

  function Notified(s: EndpointState, progress: nat): Option<EndpointState> {
    if CanNotify(s, progress) then Some(s.(progress := progress, pending := true)) else None
  }

  function CancelRequested(s: EndpointState, deferAck: bool): Option<EndpointState> {
    if s.phase != Copying then None
    else if s.pending || deferAck then Some(s.(phase := Cancelling))
    else Some(s.(phase := Cancelling, progress := 0, pending := true))
  }

  function DroppedByPeer(s: EndpointState): Option<EndpointState> {
    if s.peerDropped then None
    else if s.phase.Done? || s.pending then Some(s.(peerDropped := true))
    else Some(s.(peerDropped := true, progress := 0, pending := true))
  }

  datatype Delivery = Delivery(state: EndpointState, payload: nat)

  /** Delivery precedence: a completed future, then a dropped peer, then a
      cancellation, then plain completion of a stream copy. */
  function Delivered(s: EndpointState): Option<Delivery> {
    if !s.pending || s.phase.Done? then None
    else
      var packed := if s.future then 0 else 16 * s.progress;
      if s.future && s.progress == 1 then
        Some(Delivery(s.(phase := Done, pending := false), COPY_COMPLETED + packed))
      else if s.peerDropped then
        Some(Delivery(s.(phase := Done, pending := false), COPY_DROPPED + packed))
      else if s.phase.Cancelling? then
        Some(Delivery(s.(phase := Idle, pending := false), COPY_CANCELLED + packed))
      else if !s.future && s.phase.Copying? then
        Some(Delivery(s.(phase := Idle, pending := false), COPY_COMPLETED + packed))
      else None
  }

  /** The element count a receiver reads off an event payload. */
  function ReportedCount(future: bool, payload: nat): nat {
    if future then (if payload == COPY_COMPLETED then 1 else 0) else payload / 16
  }

  /** The state record that the C functions update in place. */
  class StateCell {
    var s: EndpointState

    constructor (initial: EndpointState)
      ensures s == initial
    {
      s := initial;
    }

    method BeginCopy() returns (ok: bool)
      modifies this
      ensures ok == Begun(old(s)).Some?
      ensures s == if ok then Begun(old(s)).value else old(s)
    {
      if s.phase != Idle || (s.pending && !s.peerDropped) {
        return false;
      }
      s := s.(phase := Copying);
      s := s.(progress := 0);
      return true;
    }

    method Notify(progress: nat) returns (ok: bool)
      modifies this
      ensures ok == Notified(old(s), progress).Some?
      ensures s == if ok then Notified(old(s), progress).value else old(s)
    {
      if (s.phase != Copying && s.phase != Cancelling && !(s.phase == Idle && s.peerDropped)) ||
         progress > COPY_MAX_LENGTH ||
         (s.phase == Idle && progress != 0) ||
         (s.future && (progress > 1 || (progress == 0 && !s.peerDropped && s.phase != Cancelling))) ||
         (s.pending && progress < s.progress) {
        return false;
      }
      s := s.(progress := progress);
      s := s.(pending := true);
      return true;
    }

    method RequestCancel(deferAck: bool) returns (ok: bool)
      modifies this
      ensures ok == CancelRequested(old(s), deferAck).Some?
      ensures s == if ok then CancelRequested(old(s), deferAck).value else old(s)
    {
      if s.phase != Copying {
        return false;
      }
      s := s.(phase := Cancelling);
      if !s.pending && !deferAck {
        s := s.(progress := 0);
        s := s.(pending := true);
      }
      return true;
    }

    method PeerDropped() returns (ok: bool)
      modifies this
      ensures ok == DroppedByPeer(old(s)).Some?
      ensures s == if ok then DroppedByPeer(old(s)).value else old(s)
    {
      if s.peerDropped {
        return false;
      }
      s := s.(peerDropped := true);
      if s.phase != Done && !s.pending {
        s := s.(progress := 0);
        s := s.(pending := true);
      }
      return true;
    }

    method TakeEvent() returns (ok: bool, payload: nat)
      modifies this
      ensures ok == Delivered(old(s)).Some?
      ensures ok ==> s == Delivered(old(s)).value.state && payload == Delivered(old(s)).value.payload
      ensures !ok ==> s == old(s)
    {
      payload := 0;
      if !s.pending || s.phase == Done {
        return false, 0;
      }
      var next: Phase;
      if s.future && s.progress == 1 {
        payload, next := COPY_COMPLETED, Done;
      } else if s.peerDropped {
        payload, next := COPY_DROPPED, Done;
      } else if s.phase == Cancelling {
        payload, next := COPY_CANCELLED, Idle;
      } else if !s.future && s.phase == Copying {
        payload, next := COPY_COMPLETED, Idle;
      } else {
        return false, 0;
      }
      if !s.future {
        payload := payload + 16 * s.progress;
      }
      s := s.(phase := next);
      s := s.(pending := false);
      return true, payload;
    }
  }
}
