/** The shared control state: the requested action, the "changed" flag read by
    the workers to abandon a pass, the track count, and the bounded wake
    channel the workers block on. */
module State {
  import opened Actions

  /** Capacity of the wake channel (a bounded channel of two messages). */
  const WAKE_CAPACITY: nat := 2

  /** What the control surface asks of the player. */
  datatype Request = TogglePlay | NextTrack | PreviousTrack | SeekForward | SeekBackward | None | Quit

  /** How a request ended: `Unimplemented` stands for the source's `todo!()` panic. */
  datatype Outcome = Done | Unimplemented

  /** What a request does to the action: install a new one (through
      `change_action`), leave the state alone, or hit `todo!()`. */
  datatype Effect = Install(next: Action) | Keep | Todo

  /** The action `next_track` installs when the player is on `track`. */
  function NextAction(track: nat, totalTracks: nat): (a: Action)
    ensures a == Play(track + 1) <==> track + 1 < totalTracks
    ensures a == Stop <==> track + 1 >= totalTracks
  {
    if track + 1 < totalTracks then Play(track + 1) else Stop
  }

  /** The action `prev_track` installs when the player is on `track`: the
      previous track, but never below track 1, and always playing. */
  function PrevAction(track: nat): (a: Action)
    ensures a.Play?
    ensures track >= 2 ==> a.track == track - 1
    ensures track < 2 ==> a.track == track
  {
    var prev := track as int - 1;
    if prev >= 1 then Play(prev) else Play(track)
  }

  /** Play/pause toggling on the same track. */
  function Toggled(a: Action): (b: Action)
    requires !a.Stop?
    ensures !b.Stop? && b.track == a.track
    ensures b.Play? <==> a.Pause?
  {
    match a
    case Play(t) => Pause(t)
    case Pause(t) => Play(t)
  }

  /** The effect of `handle_request(req)` on a state whose action is `a`. */
  function Respond(req: Request, a: Action, totalTracks: nat): (e: Effect)
    ensures e.Todo? <==> req.SeekForward? || req.SeekBackward? || (req.TogglePlay? && a.Stop?)
    ensures e.Keep? <==> req.None? || req.Quit? || (!req.TogglePlay? && !e.Todo? && a.Stop?)
  {
    match req
    case TogglePlay => if a.Stop? then Todo else Install(Toggled(a))
    case NextTrack => if a.Stop? then Keep else Install(NextAction(a.track, totalTracks))
    case PreviousTrack => if a.Stop? then Keep else Install(PrevAction(a.track))
    case SeekForward => Todo
    case SeekBackward => Todo
    case None => Keep
    case Quit => Keep
  }

  /** `n` natural ends of track in a row: each one calls `next_track`. */
  function Advance(a: Action, totalTracks: nat, n: nat): Action
    decreases n
  {
    if n == 0 || a.Stop? then a else Advance(NextAction(a.track, totalTracks), totalTracks, n - 1)
  }

  /** Toggling twice gives back the original action. */
  lemma ToggleTwice(a: Action)
    requires !a.Stop?
    ensures Toggled(Toggled(a)) == a
  {
  }

  /** Stepping forward and then back returns to the same track, now playing. */
  lemma PrevUndoesNext(track: nat, totalTracks: nat)
    requires 1 <= track && track + 1 < totalTracks
    ensures PrevAction(NextAction(track, totalTracks).track) == Play(track)
  {
  }

  /** Stepping back and then forward returns to the same track unless the
      step back hit the floor at track 1. */
  lemma NextUndoesPrev(track: nat, totalTracks: nat)
    requires 2 <= track < totalTracks
    ensures NextAction(PrevAction(track).track, totalTracks) == Play(track)
  {
  }

  /** The track in an action never drops below 1 and never passes the track
      count, whatever request is handled. */
  lemma {:induction false} RespondKeepsValid(req: Request, a: Action, totalTracks: nat)
    requires ValidAction(a, totalTracks)
    ensures Respond(req, a, totalTracks).Install? ==> ValidAction(Respond(req, a, totalTracks).next, totalTracks)
  {
    match req
    case TogglePlay =>
    case NextTrack =>
    case PreviousTrack =>
    case SeekForward =>
    case SeekBackward =>
    case None =>
    case Quit =>
  }

  /** From any track, `totalTracks` natural ends of track reach `Stop`: the
      player never advances forever. */
  lemma {:induction false} AdvanceStops(track: nat, totalTracks: nat, n: nat)
    requires n >= 1 && track + n >= totalTracks
    ensures Advance(Play(track), totalTracks, n) == Stop
    decreases n
  {
    if track + 1 < totalTracks {
      AdvanceStops(track + 1, totalTracks, n - 1);
    }
  }

  /** Starting from any track `t`, the `k`-th natural end of track plays
      track `t + k` as long as `t + k` is below the track count: tracks are
      visited in order and the last one reached is `totalTracks - 1`. */
  lemma {:induction false} AdvanceVisitsInOrder(track: nat, totalTracks: nat, k: nat)
    requires track + k < totalTracks
    ensures Advance(Play(track), totalTracks, k) == Play(track + k)
    decreases k
  {
    if k > 0 {
      AdvanceVisitsInOrder(track + 1, totalTracks, k - 1);
    }
  }

  /** The control state shared by the control surface and both workers. */
  class PlayerState {
    var action: Action
    /** The "changed" flag the workers poll to abandon a pass. */
    var stateChanged: bool
    /** Set once the disc's table of contents has been read; 0 before that. */
    var totalTracks: U8
    /** Wake messages queued in the bounded channel. */
    var pendingWakes: nat

    ghost predicate Valid()
      reads this
    {
      pendingWakes <= WAKE_CAPACITY
    }

    constructor ()
      ensures Valid()
      ensures action == Play(1) && !stateChanged && totalTracks == 0 && pendingWakes == 0
    {
      action := Play(1);
      stateChanged := false;
      totalTracks := 0;
      pendingWakes := 0;
    }

    /** Best-effort post to the wake channel: a full channel drops the
        message and is not an error. */
    method TrySend() returns (sent: bool)
      requires Valid()
      modifies this`pendingWakes
      ensures Valid()
      ensures sent <==> old(pendingWakes) < WAKE_CAPACITY
      ensures pendingWakes == if sent then old(pendingWakes) + 1 else old(pendingWakes)
    {
      sent := pendingWakes < WAKE_CAPACITY;
      if sent {
        pendingWakes := pendingWakes + 1;
      }
    }

    /** Blocks until a wake is pending and consumes it; blocking forever is
        excluded by the precondition. */
    method WaitForChange()
      requires Valid() && pendingWakes > 0
      modifies this`pendingWakes
      ensures Valid()
      ensures pendingWakes == old(pendingWakes) - 1
    {
      pendingWakes := pendingWakes - 1;
    }

    /** Installs `a`, raises the changed flag and posts two wakes, one for
        each worker. It never fails: the channel ends up full. */
    method ChangeAction(a: Action)
      requires Valid()
      modifies this
      ensures Valid()
      ensures action == a && stateChanged
      ensures pendingWakes == WAKE_CAPACITY
      ensures totalTracks == old(totalTracks)
    {
      action := a;
      stateChanged := true;
      var _ := TrySend();
      var _ := TrySend();
    }

    /** Moves to the next track, or to `Stop` after the last one; on `Stop`
        it changes nothing. */
    method NextTrack()
      requires Valid()
      modifies this
      ensures Valid()
      ensures old(action).Stop? ==> unchanged(this)
      ensures !old(action).Stop? ==>
        action == NextAction(old(action).track, totalTracks) && stateChanged && pendingWakes == WAKE_CAPACITY
      ensures totalTracks == old(totalTracks)
    {
      match action
      case Play(track) => ChangeAction(NextAction(track, totalTracks));
      case Pause(track) => ChangeAction(NextAction(track, totalTracks));
      case Stop =>
    }

    /** Moves to the previous track, staying on track 1 at the floor; on
        `Stop` it changes nothing. */
    method PrevTrack()
      requires Valid()
      modifies this
      ensures Valid()
      ensures old(action).Stop? ==> unchanged(this)
      ensures !old(action).Stop? ==>
        action == PrevAction(old(action).track) && stateChanged && pendingWakes == WAKE_CAPACITY
      ensures totalTracks == old(totalTracks)
    {
      match action
      case Play(track) => ChangeAction(PrevAction(track));
      case Pause(track) => ChangeAction(PrevAction(track));
      case Stop =>
    }

    /** Dispatches a control-surface request. */
    method HandleRequest(req: Request) returns (r: Outcome)
      requires Valid()
      modifies this
      ensures Valid()
      ensures r == Unimplemented <==> Respond(req, old(action), old(totalTracks)).Todo?
      ensures !Respond(req, old(action), old(totalTracks)).Install? ==> unchanged(this)
      ensures Respond(req, old(action), old(totalTracks)).Install? ==>
        action == Respond(req, old(action), old(totalTracks)).next && stateChanged && pendingWakes == WAKE_CAPACITY
      ensures totalTracks == old(totalTracks)
    {
      r := Done;
      if req.TogglePlay? {
        match action
        case Play(track) => ChangeAction(Pause(track));
        case Pause(track) => ChangeAction(Play(track));
        case Stop => r := Unimplemented;
      } else if req.NextTrack? {
        NextTrack();
      } else if req.PreviousTrack? {
        PrevTrack();
      } else if req.SeekForward? || req.SeekBackward? {
        r := Unimplemented;
      }
    }
  }
}
