/**
 * The journal's `accept` as it runs over its store (packages/app/src/bot-media-ingress-journal.ts):
 * load and validate, look the item up, push to the album and to the media list, and commit.
 */
module MediaStore {
  import opened Common
  import opened MediaJournal
  import opened MediaValidator
  import R = MediaRuns

  datatype Answer = Answered(reply: Reply) | Failed(code: Code) | InQuarantine | Unavailable

  class Store {
    var disk: Option<Stored>
    var quarantined: bool

    constructor ()
      ensures disk.None? && !quarantined
    {
      disk, quarantined := None, false;
    }

    ghost function Current(): (b: Body)
      reads this
    {
      if disk.Some? then disk.value.body else INITIAL
    }

    /** `load`: a record that does not validate quarantines the binding. */
    method Load() returns (state: Option<Body>)
      modifies this
      ensures disk == old(disk)
      ensures state.Some? <==> !old(quarantined) && (old(disk).None? || Valid(old(disk).value))
      ensures state.Some? ==> state.value == old(Current()) && !quarantined
      ensures state.None? ==> quarantined
    {
      if quarantined {
        return None;
      }
      if disk.None? {
        return Some(INITIAL);
      }
      var ok := ValidateState(disk.value);
      if !ok {
        quarantined := true;
        return None;
      }
      state := Some(disk.value.body);
    }

    /** The position of the first item with this update, or with this identifier. */
    static method FindMedia(media: seq<Media>, id: MediaId) returns (i: nat)
      ensures i <= |media|
      ensures i < |media| <==> MediaById(media, id).Some?
      ensures i < |media| ==> MediaById(media, id) == Some(i)
    {
      i := 0;
      while i < |media|
        invariant 0 <= i <= |media|
        invariant forall k :: 0 <= k < i ==> media[k].id != id
      {
        if media[i].id == id {
          return;
        }
        i := i + 1;
      }
    }

    /** The find-or-create and the pushes on the album of a group; `pushed` is false when it has no room. */
    static method Push(albums: seq<Album>, group: Name, id: MediaId)
        returns (next: seq<Album>, phase: Phase, pushed: bool)
      requires var (all, k) := WithAlbum(albums, group); all[k].phase == Collecting && id !in all[k].capped
      ensures phase == if |WithAlbum(albums, group).0[WithAlbum(albums, group).1].ordered| < MAX_ALBUM_ITEMS
        then Accepted else Capped
      ensures var (all, k) := WithAlbum(albums, group);
        var a := all[k];
        && pushed == (phase == Accepted || |a.capped| < MAX_CAPPED_ALBUM_ITEMS)
        && (pushed ==> next == all[k := a.(ordered := if phase == Accepted then a.ordered + [id] else a.ordered,
                                           capped := if phase == Capped then a.capped + [id] else a.capped,
                                           received := a.received + 1,
                                           failed := if phase == Capped then a.failed + 1 else a.failed,
                                           revision := a.revision + 1)])
    {
      var (all, k) := WithAlbum(albums, group);
      next := all;
      var album := next[k];
      album := album.(received := album.received + 1, revision := album.revision + 1);
      if |album.ordered| >= MAX_ALBUM_ITEMS {
        phase := Capped;
        if |album.capped| >= MAX_CAPPED_ALBUM_ITEMS {
          pushed := false;
          return;
        }
        album := album.(capped := album.capped + [id], failed := album.failed + 1);
      } else {
        phase := Accepted;
        album := album.(ordered := album.ordered + [id]);
      }
      next := next[k := album];
      pushed := true;
    }

    /** The compare-and-swap: only over the record that was loaded, or over nothing if nothing was. */
    method Commit(previous: Body, next: Body) returns (swapped: bool)
      modifies this
      ensures swapped <==> R.Swaps(old(disk), previous)
      ensures disk == (if swapped then Some(Stored(next, next)) else old(disk)) && quarantined == old(quarantined)
    {
      var untouched := previous.revision == 0 && previous.media == [] && previous.albums == [];
      swapped := if untouched then disk.None?
                 else disk.Some? && disk.value.body.revision == previous.revision && disk.value.checksum == previous;
      if swapped {
        disk := Some(Stored(next, next));
      }
    }

    /** Carries out the decision `Accept` of the model, and nothing else. */
    method AcceptItem(r: AcceptRequest) returns (a: Answer)
      modifies this
      ensures old(quarantined) || (old(disk).Some? && !Valid(old(disk).value)) ==>
        a == InQuarantine && quarantined && disk == old(disk)
      ensures !old(quarantined) && (old(disk).None? || Valid(old(disk).value)) ==>
        var d := Accept(old(Current()), r);
        match d
        case Keep(reply) => a == Answered(reply) && disk == old(disk) && !quarantined
        case Refuse(code) => a == Failed(code) && disk == old(disk) && !quarantined
        case Isolate => a == InQuarantine && disk == old(disk) && quarantined
        case Write(next, reply) =>
          !quarantined &&
          if R.Swaps(old(disk), old(Current())) then a == Answered(reply) && disk == Some(Stored(next, next))
          else a == Unavailable && disk == old(disk)
    {
      var state := Load();
      if state.None? {
        return InQuarantine;
      }
      var s := state.value;
      var id := IdOf(r);
      if Conflicts(s.media, r) {
        quarantined := true;
        return InQuarantine;
      }
      var i := FindMedia(s.media, id);
      if i < |s.media| {
        if !Exact(s.media[i], r) {
          quarantined := true;
          return InQuarantine;
        }
        return Answered(if s.media[i].phase == Capped then RCapped else RDuplicate);
      }
      if |s.media| >= MAX_MEDIA {
        return Failed(MediaLimitExceeded);
      }
      var albums, phase := s.albums, Accepted;
      if r.group.Some? {
        if AlbumOf(albums, r.group.value).None? && |albums| >= MAX_ALBUMS {
          return Failed(MediaLimitExceeded);
        }
        var (all, k) := WithAlbum(albums, r.group.value);
        if all[k].phase != Collecting {
          quarantined := true;
          return InQuarantine;
        }
        if id in all[k].capped {
          return Answered(RCapped);
        }
        var pushed;
        albums, phase, pushed := Push(albums, r.group.value, id);
        if !pushed {
          return Failed(MediaLimitExceeded);
        }
      }
      var swapped := Commit(s, Body(s.revision + 1, s.media + [NewMedia(r, phase)], albums));
      a := if swapped then Answered(if phase == Capped then RCapped else RAccepted) else Unavailable;
    }
  }
}
