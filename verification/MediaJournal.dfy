/**
 * The Telegram media ingress journal of one binding (packages/app/src/bot-media-ingress-journal.ts):
 * media and album phases, capped albums, and the operations that produce the next state to commit.
 *
 * A digest is a free constructor over what is hashed, so an identifier names its identity fields
 * and a checksum names the whole body. Shape checks of strings and time stamps are left to types.
 */
module MediaJournal {
  import opened Common

  type Name = nat

  const MAX_MEDIA := 512
  const MAX_ALBUMS := 64
  const MAX_ALBUM_ITEMS := 10
  const MAX_CAPPED_ALBUM_ITEMS := 54

  datatype Kind = Document | Audio | Photo | Video | Voice | Animation
  datatype Phase = Accepted | Recorded | Transcribed | Degraded | Cancelled | Capped | Quarantined
  datatype AlbumPhase = Collecting | Sealed | AckPending | AckDelivered | AlbumQuarantined

  datatype MediaId = MediaId(update: nat, message: nat, kind: Kind, source: Name)

  datatype Media = Media(
    id: MediaId, update: nat, message: nat, ts: Name, kind: Kind, source: Name, group: Option<Name>,
    phase: Phase, file: Option<Name>, sha: Option<Name>, size: Option<nat>, transcript: Option<Name>,
    revision: int)

  datatype Album = Album(
    group: Name, ordered: seq<MediaId>, capped: seq<MediaId>,
    received: int, failed: int, phase: AlbumPhase, revision: int)

  datatype Body = Body(revision: int, media: seq<Media>, albums: seq<Album>)

  /** The stored record; the checksum is the digest of a body. */
  datatype Stored = Stored(body: Body, checksum: Body)

  const INITIAL := Body(0, [], [])

  // ---- requests and outcomes ------------------------------------------------------------------------

  datatype AcceptRequest = AcceptRequest(
    update: nat, message: nat, ts: Name, kind: Kind, source: Name, group: Option<Name>)

  datatype VoiceOutcome = ToTranscribed(transcript: Name) | ToDegraded | ToCancelled

  datatype Request =
    | AcceptItem(item: AcceptRequest)
    | Record(id: MediaId, file: Name, sha: Name, size: nat)
    | RecordVoice(id: MediaId, outcome: VoiceOutcome)
    | SealAlbum(group: Name, order: seq<MediaId>)
    | MarkAck(group: Name, expected: int, delivered: bool)

  datatype Reply = RAccepted | RDuplicate | RCapped | RMedia(media: Media) | RAlbum(album: Album)
  datatype Code = MediaLimitExceeded | BindingMismatch | IdentityConflict

  /** What an operation decides from the state it loaded. */
  datatype Decision =
    | Keep(reply: Reply)                 // answered without a commit
    | Write(next: Body, reply: Reply)    // to be committed
    | Refuse(code: Code)
    | Isolate                            // the binding is quarantined

  function IdOf(r: AcceptRequest): (id: MediaId) { MediaId(r.update, r.message, r.kind, r.source) }

  function NewMedia(r: AcceptRequest, phase: Phase): (m: Media) {
    Media(IdOf(r), r.update, r.message, r.ts, r.kind, r.source, r.group, phase, None, None, None, None, 1)
  }

  function MediaById(media: seq<Media>, id: MediaId): (r: Option<nat>)
    ensures r.Some? ==> r.value < |media| && media[r.value].id == id && forall k :: 0 <= k < r.value ==>
      media[k].id != id
    ensures r.None? ==> forall m :: m in media ==> m.id != id
  {
    if media == [] then None
    else if media[0].id == id then Some(0)
    else var r := MediaById(media[1..], id); if r.Some? then Some(r.value + 1) else None
  }

  function AlbumOf(albums: seq<Album>, group: Name): (r: Option<nat>)
    ensures r.Some? ==> r.value < |albums| && albums[r.value].group == group && forall k :: 0 <= k < r.value ==>
      albums[k].group != group
    ensures r.None? ==> forall a :: a in albums ==> a.group != group
  {
    if albums == [] then None
    else if albums[0].group == group then Some(0)
    else var r := AlbumOf(albums[1..], group); if r.Some? then Some(r.value + 1) else None
  }

  predicate Conflicts(media: seq<Media>, r: AcceptRequest) {
    var same := Find(media, (m: Media) => m.update == r.update);
    same.Some? && same.value.id != IdOf(r)
  }

  predicate Exact(m: Media, r: AcceptRequest) {
    m.update == r.update && m.message == r.message && m.ts == r.ts && m.kind == r.kind && m.source == r.source &&
      m.group == r.group
  }

  /** The albums after a find-or-create for the group, and the index of the group's album. */
  function WithAlbum(albums: seq<Album>, group: Name): (r: (seq<Album>, nat))
    ensures r.1 < |r.0| && r.0[r.1].group == group
  {
    match AlbumOf(albums, group)
    case Some(k) => (albums, k)
    case None => (albums + [Album(group, [], [], 0, 0, Collecting, 1)], |albums|)
  }

  function Accept(s: Body, r: AcceptRequest): (d: Decision) {
    var id := IdOf(r);
    var existing := MediaById(s.media, id);
    if Conflicts(s.media, r) then Isolate
    else if existing.Some? then
      if !Exact(s.media[existing.value], r) then Isolate
      else Keep(if s.media[existing.value].phase == Capped then RCapped else RDuplicate)
    else if |s.media| >= MAX_MEDIA then Refuse(MediaLimitExceeded)
    else if r.group.None? then
      Write(Body(s.revision + 1, s.media + [NewMedia(r, Accepted)], s.albums), RAccepted)
    else if AlbumOf(s.albums, r.group.value).None? && |s.albums| >= MAX_ALBUMS then Refuse(MediaLimitExceeded)
    else
      var (albums, k) := WithAlbum(s.albums, r.group.value);
      var album := albums[k];
      if album.phase != Collecting then Isolate
      else if id in album.capped then Keep(RCapped)
      else if |album.ordered| < MAX_ALBUM_ITEMS then
        var joined := album.(ordered := album.ordered + [id], received := album.received + 1,
          revision := album.revision + 1);
        Write(Body(s.revision + 1, s.media + [NewMedia(r, Accepted)], albums[k := joined]), RAccepted)
      else if |album.capped| >= MAX_CAPPED_ALBUM_ITEMS then Refuse(MediaLimitExceeded)
      else
        var joined := album.(capped := album.capped + [id], received := album.received + 1,
                             failed := album.failed + 1, revision := album.revision + 1);
        Write(Body(s.revision + 1, s.media + [NewMedia(r, Capped)], albums[k := joined]), RCapped)
  }

  function RecordFile(s: Body, id: MediaId, file: Name, sha: Name, size: nat, maxBytes: nat): (d: Decision) {
    if size > maxBytes then Refuse(MediaLimitExceeded)
    else
      var index := MediaById(s.media, id);
      if index.None? then Refuse(BindingMismatch)
      else
        var m := s.media[index.value];
        if m.phase == Accepted then
          var next := m.(phase := Recorded, file := Some(file), sha := Some(sha), size := Some(size),
            revision := m.revision + 1);
          Write(Body(s.revision + 1, s.media[index.value := next], s.albums), RMedia(next))
        else if m.file == Some(file) && m.sha == Some(sha) && m.size == Some(size) then Keep(RMedia(m))
        else Isolate
  }

  function Settled(m: Media, o: VoiceOutcome): (r: Media) {
    match o
    case ToTranscribed(t) => m.(phase := Transcribed, transcript := Some(t), revision := m.revision + 1)
    case ToDegraded => m.(phase := Degraded, revision := m.revision + 1)
    case ToCancelled => m.(phase := Cancelled, revision := m.revision + 1)
  }

  predicate SameOutcome(m: Media, o: VoiceOutcome) {
    match o
    case ToTranscribed(t) => m.phase == Transcribed && m.transcript == Some(t)
    case ToDegraded => m.phase == Degraded
    case ToCancelled => m.phase == Cancelled
  }

  function SettleVoice(s: Body, id: MediaId, o: VoiceOutcome): (d: Decision) {
    var index := MediaById(s.media, id);
    if index.None? || s.media[index.value].kind != Voice then Refuse(BindingMismatch)
    else
      var m := s.media[index.value];
      if m.phase in {Transcribed, Degraded, Cancelled} then if SameOutcome(m, o) then Keep(RMedia(m)) else Isolate
      else if m.phase != Recorded then Refuse(BindingMismatch)
      else Write(Body(s.revision + 1, s.media[index.value := Settled(m, o)], s.albums), RMedia(Settled(m, o)))
  }

  function Seal(s: Body, group: Name, order: seq<MediaId>): (d: Decision) {
    var index := AlbumOf(s.albums, group);
    if index.None? then Refuse(BindingMismatch)
    else
      var a := s.albums[index.value];
      if a.ordered != order then Isolate
      else if a.phase == Sealed then Keep(RAlbum(a))
      else if a.phase != Collecting then Isolate
      else
        var next := a.(phase := Sealed, revision := a.revision + 1);
        Write(Body(s.revision + 1, s.media, s.albums[index.value := next]), RAlbum(next))
  }

  function Acknowledge(s: Body, group: Name, expected: int, delivered: bool): (d: Decision) {
    var index := AlbumOf(s.albums, group);
    if index.None? || s.albums[index.value].revision != expected then Refuse(IdentityConflict)
    else
      var a := s.albums[index.value];
      if a.phase != (if delivered then AckPending else Sealed) then Refuse(IdentityConflict)
      else
        var next := a.(phase := if delivered then AckDelivered else AckPending, revision := a.revision + 1);
        Write(Body(s.revision + 1, s.media, s.albums[index.value := next]), RAlbum(next))
  }

  function Decide(s: Body, q: Request, maxBytes: nat): (d: Decision) {
    match q
    case AcceptItem(r) => Accept(s, r)
    case Record(id, file, sha, size) => RecordFile(s, id, file, sha, size, maxBytes)
    case RecordVoice(id, o) => SettleVoice(s, id, o)
    case SealAlbum(group, order) => Seal(s, group, order)
    case MarkAck(group, expected, delivered) => Acknowledge(s, group, expected, delivered)
  }
}
