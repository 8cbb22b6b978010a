/**
 * The single-slot hand-off between background art downloads and the frame loop.
 * Downloads overwrite the slot; the frame loop takes and clears it once per frame.
 */
module Mailbox {
  import opened Types

  /** What a background download ended with: a written temporary file, or a network/file error. */
  datatype FetchOutcome = Downloaded(path: Path) | Failed

  /** The shared `Option<String>` cell; the lock around it is not modelled. */
  class PendingSlot {
    var path: Option<Path>

    constructor ()
      ensures path == None
    {
      path := None;
    }

    /** Reads the slot and leaves it empty; on an empty slot this returns `None` and changes nothing. */
    method Take() returns (taken: Option<Path>)
      modifies this
      ensures taken == old(path)
      ensures path == None
    {
      taken := path;
      path := None;
    }
  }

  /**
   * The slot after a download for `url` finished with `outcome`: an empty URL leaves it
   * alone, otherwise the outcome overwrites whatever was there (last write wins).
   */
  function Published(slot: Option<Path>, url: Url, outcome: FetchOutcome): (r: Option<Path>)
    ensures url == [] ==> r == slot
    ensures url != [] ==> (r.Some? <==> outcome.Downloaded?) && (r.Some? ==> r.value == outcome.path)
  {
    if url == [] then slot
    else match outcome
      case Downloaded(p) => Some(p)
      case Failed => None
  }

  /** A background download: returns at once for an empty URL, else writes its outcome into the slot. */
  method DownloadAlbumArt(url: Url, outcome: FetchOutcome, slot: PendingSlot)
    modifies slot
    ensures slot.path == Published(old(slot.path), url, outcome)
  {
    if url == [] {
      return;
    }
    match outcome {
      case Downloaded(p) => slot.path := Some(p);
      case Failed => slot.path := None;
    }
  }

  /** One access to the slot: a download completing, or the frame loop taking the slot. */
  datatype SlotEvent = Completed(url: Url, outcome: FetchOutcome) | Taken

  function Apply(slot: Option<Path>, e: SlotEvent): Option<Path>
  {
    match e
    case Completed(url, outcome) => Published(slot, url, outcome)
    case Taken => None
  }

  /** The slot after the events happen in order, starting from `slot`. */
  function Replay(slot: Option<Path>, events: seq<SlotEvent>): Option<Path>
    decreases |events|
  {
    if events == [] then slot else Replay(Apply(slot, events[0]), events[1..])
  }

  /**
   * The slot as determined by the most recent write alone: a take empties it, a completed
   * download with a URL sets it, a download with an empty URL is skipped.
   */
  function LastWrite(initial: Option<Path>, events: seq<SlotEvent>): Option<Path>
    decreases |events|
  {
    if events == [] then initial
    else
      var last := events[|events| - 1];
      match last
      case Taken => None
      case Completed(url, outcome) =>
        if url == [] then LastWrite(initial, events[..|events| - 1])
        else if outcome.Downloaded? then Some(outcome.path) else None
  }

  lemma {:induction false} LastWriteAfterFirst(initial: Option<Path>, e: SlotEvent, rest: seq<SlotEvent>)
    ensures LastWrite(Apply(initial, e), rest) == LastWrite(initial, [e] + rest)
    decreases |rest|
  {
    var all := [e] + rest;
    if rest == [] {
      assert all[..0] == [];
    } else {
      var n := |rest| - 1;
      assert all[|all| - 1] == rest[n];
      assert all[..|all| - 1] == [e] + rest[..n];
      LastWriteAfterFirst(initial, e, rest[..n]);
    }
  }

  /** Replaying the accesses in order leaves in the slot exactly what the last write put there. */
  lemma {:induction false} ReplayIsLastWrite(initial: Option<Path>, events: seq<SlotEvent>)
    ensures Replay(initial, events) == LastWrite(initial, events)
    decreases |events|
  {
    if events != [] {
      ReplayIsLastWrite(Apply(initial, events[0]), events[1..]);
      LastWriteAfterFirst(initial, events[0], events[1..]);
      assert [events[0]] + events[1..] == events;
    }
  }

  /** Whether the event replaces what the slot holds: a take, or a download for a non-empty URL. */
  predicate Overwrites(e: SlotEvent)
  {
    e.Taken? || e.url != []
  }

  /**
   * A path that no event writes cannot be in the slot after the events, unless it was there
   * at the start and nothing has overwritten it since.
   */
  lemma {:induction false} LastWriteAvoids(initial: Option<Path>, events: seq<SlotEvent>, p: Path)
    requires forall k | 0 <= k < |events| :: !(events[k].Completed? && events[k].outcome == Downloaded(p))
    requires initial != Some(p) || exists k | 0 <= k < |events| :: Overwrites(events[k])
    ensures LastWrite(initial, events) != Some(p)
    decreases |events|
  {
    if events != [] {
      var n := |events| - 1;
      var prefix := events[..n];
      if events[n].Completed? && events[n].url == [] {
        assert forall k | 0 <= k < n :: prefix[k] == events[k];
        if initial == Some(p) {
          var w :| 0 <= w < |events| && Overwrites(events[w]);
          assert w < n && Overwrites(prefix[w]);
        }
        LastWriteAvoids(initial, prefix, p);
      }
    }
  }

  /** A download that has finished: the URL it was started for and how it ended. */
  datatype Completion = Completion(url: Url, outcome: FetchOutcome)

  function AsEvents(completed: seq<Completion>): (events: seq<SlotEvent>)
    ensures |events| == |completed|
    ensures forall k | 0 <= k < |completed| :: events[k] == Completed(completed[k].url, completed[k].outcome)
  {
    seq(|completed|, k requires 0 <= k < |completed| => Completed(completed[k].url, completed[k].outcome))
  }

  /** The slot after the downloads in `completed` wrote it, in that order. */
  function Deliver(slot: Option<Path>, completed: seq<Completion>): Option<Path>
  {
    Replay(slot, AsEvents(completed))
  }

  /** The downloads that finished since the previous frame each write the shared slot, in order. */
  method DeliverAll(completed: seq<Completion>, slot: PendingSlot)
    modifies slot
    ensures slot.path == Deliver(old(slot.path), completed)
  {
    ghost var initial := slot.path;
    for k := 0 to |completed|
      invariant slot.path == LastWrite(initial, AsEvents(completed[..k]))
    {
      assert AsEvents(completed[..k + 1])[..k] == AsEvents(completed[..k]);
      DownloadAlbumArt(completed[k].url, completed[k].outcome, slot);
    }
    assert completed[..|completed|] == completed;
    ReplayIsLastWrite(initial, AsEvents(completed));
  }
}
