/**
 * What every committed state of the media journal satisfies, over any interleaving of journals
 * on a compare-and-swap store: it is valid, it conserves revisions, and nothing accepted is lost.
 */
module MediaRuns {
  import opened Common
  import opened MediaJournal
  import opened MediaValidator

  // ---- conservation -----------------------------------------------------------------------------------

  function SumMedia(media: seq<Media>): (r: int) {
    if media == [] then 0 else SumMedia(media[..|media| - 1]) + media[|media| - 1].revision
  }

  /** An album's own transitions: its revision without the initial one and the received items. */
  function Own(a: Album): (r: int) { a.revision - 1 - a.received }

  function SumAlbums(albums: seq<Album>): (r: int) {
    if albums == [] then 0 else SumAlbums(albums[..|albums| - 1]) + Own(albums[|albums| - 1])
  }

  lemma {:induction false} SumMediaUpdate(media: seq<Media>, i: nat, m: Media)
    requires i < |media|
    ensures SumMedia(media[i := m]) == SumMedia(media) - media[i].revision + m.revision
  {
    var n := |media| - 1;
    if i == n {
      assert media[i := m][..n] == media[..n];
    } else {
      assert media[i := m][..n] == media[..n][i := m];
      SumMediaUpdate(media[..n], i, m);
    }
  }

  lemma {:induction false} SumAlbumsUpdate(albums: seq<Album>, i: nat, a: Album)
    requires i < |albums|
    ensures SumAlbums(albums[i := a]) == SumAlbums(albums) - Own(albums[i]) + Own(a)
  {
    var n := |albums| - 1;
    if i == n {
      assert albums[i := a][..n] == albums[..n];
    } else {
      assert albums[i := a][..n] == albums[..n][i := a];
      SumAlbumsUpdate(albums[..n], i, a);
    }
  }

  lemma SumAppend(media: seq<Media>, m: Media, albums: seq<Album>, a: Album)
    ensures SumMedia(media + [m]) == SumMedia(media) + m.revision
    ensures SumAlbums(albums + [a]) == SumAlbums(albums) + Own(a)
  {
    assert (media + [m])[..|media|] == media;
    assert (albums + [a])[..|albums|] == albums;
  }

  // ---- the invariant -----------------------------------------------------------------------------------

  function Rank(p: Phase): (r: int) {
    match p case Accepted => 1 case Capped => 1 case Recorded => 2 case _ => 3
  }

  function AlbumRank(p: AlbumPhase): (r: int) {
    match p case Collecting => 0 case Sealed => 1 case AckPending => 2 case _ => 3
  }

  predicate MediaRanked(m: Media) { m.revision == Rank(m.phase) && m.phase != Quarantined }

  predicate AlbumRanked(a: Album) {
    && a.received == |a.ordered| + |a.capped| && a.failed == |a.capped|
    && Own(a) == AlbumRank(a.phase) && a.phase != AlbumQuarantined
  }

  ghost predicate UniqueUpdates(media: seq<Media>) {
    forall i, j :: 0 <= i < j < |media| ==> media[i].update != media[j].update
  }

  ghost predicate Counted(b: Body) {
    && (forall m :: m in b.media ==> MediaRanked(m))
    && (forall a :: a in b.albums ==> AlbumRanked(a))
    && b.revision == SumMedia(b.media) + SumAlbums(b.albums)
  }

  ghost predicate JInv(b: Body) {
    ValidBody(b) && UniqueUpdates(b.media) && Counted(b)
  }

  // ---- what a write keeps and adds ------------------------------------------------------------------------

  /** Later content of the same item: its identity and its recorded file never change. */
  predicate Continues(m: Media, n: Media) {
    && n.id == m.id && n.update == m.update && n.message == m.message && n.ts == m.ts
    && n.kind == m.kind && n.source == m.source && n.group == m.group
    && Rank(m.phase) <= Rank(n.phase) && (m.phase == Capped <==> n.phase == Capped)
    && (Rank(m.phase) == Rank(n.phase) ==> m == n)
    && (m.file.Some? ==> n.file == m.file && n.sha == m.sha && n.size == m.size)
  }

  predicate AlbumContinues(a: Album, c: Album) {
    && c.group == a.group && a.ordered <= c.ordered && a.capped <= c.capped
    && AlbumRank(a.phase) <= AlbumRank(c.phase)
    && (a.phase != Collecting ==> c.ordered == a.ordered && c.capped == a.capped)
  }

  ghost predicate Extends(b: Body, c: Body) {
    && b.revision <= c.revision && |b.media| <= |c.media| && |b.albums| <= |c.albums|
    && (forall i :: 0 <= i < |b.media| ==> Continues(b.media[i], c.media[i]))
    && (forall i :: 0 <= i < |b.albums| ==> AlbumContinues(b.albums[i], c.albums[i]))
  }

  lemma ExtendsChain(a: Body, b: Body, c: Body)
    requires Extends(a, b) && Extends(b, c)
    ensures Extends(a, c)
  {}

  // ---- places ------------------------------------------------------------------------------------------------

  /** A new item is nowhere yet. */
  lemma FreshNowhere(media: seq<Media>, albums: seq<Album>, id: MediaId)
    requires PlacesKnown(media, albums) && forall m :: m in media ==> m.id != id
    ensures !Somewhere(albums, id)
  {
    forall p, x | Holds(albums, p, x) ensures x != id {
      assert BelongsAt(media, albums, p, x);
    }
  }

  lemma BelongsMore(media: seq<Media>, m: Media, albums: seq<Album>)
    requires PlacesKnown(media, albums)
    ensures PlacesKnown(media + [m], albums)
  {
    forall p, id | Holds(albums, p, id) ensures BelongsAt(media + [m], albums, p, id) {
      assert BelongsAt(media, albums, p, id);
      var n :| n in media && n.id == id && n.group == Some(albums[p.album].group) && (n.phase == Capped <==> p.capped);
      assert n in media + [m];
    }
  }

  function Joined(a: Album, id: MediaId, capped: bool): (c: Album) {
    if capped then a.(capped := a.capped + [id], received := a.received + 1, failed := a.failed + 1,
      revision := a.revision + 1)
    else a.(ordered := a.ordered + [id], received := a.received + 1, revision := a.revision + 1)
  }

  lemma JoinedHolds(albums: seq<Album>, k: nat, id: MediaId, capped: bool, p: Place, x: MediaId)
    requires k < |albums|
    ensures Holds(albums[k := Joined(albums[k], id, capped)], p, x) <==>
      Holds(albums, p, x) || (x == id && p == Place(k, capped, |Side(albums[k], capped)|))
  {}

  /** A fresh item of the group joins its album on the side its phase says. */
  lemma JoinKeepsPlaces(media: seq<Media>, albums: seq<Album>, k: nat, m: Media)
    requires k < |albums| && m.group == Some(albums[k].group)
    requires PlacesKnown(media, albums) && PlacesUnique(albums) && UniqueGroups(albums)
    requires forall n :: n in media ==> n.id != m.id
    ensures var albums' := albums[k := Joined(albums[k], m.id, m.phase == Capped)];
      PlacesKnown(media + [m], albums') && PlacesUnique(albums') && UniqueGroups(albums')
  {
    var capped := m.phase == Capped;
    var albums' := albums[k := Joined(albums[k], m.id, capped)];
    FreshNowhere(media, albums, m.id);
    BelongsMore(media, m, albums);
    forall p, id | Holds(albums', p, id) ensures BelongsAt(media + [m], albums', p, id) {
      JoinedHolds(albums, k, m.id, capped, p, id);
      if Holds(albums, p, id) {
        assert BelongsAt(media + [m], albums, p, id);
      } else {
        assert m in media + [m];
      }
    }
    forall p, q, id | Holds(albums', p, id) && Holds(albums', q, id) ensures p == q {
      JoinedHolds(albums, k, m.id, capped, p, id);
      JoinedHolds(albums, k, m.id, capped, q, id);
    }
  }

  lemma JoinKeepsGrouped(media: seq<Media>, albums: seq<Album>, k: nat, m: Media)
    requires k < |albums| && GroupedPlaced(media, albums)
    ensures GroupedPlaced(media + [m], albums[k := Joined(albums[k], m.id, m.phase == Capped)])
  {
    var capped := m.phase == Capped;
    var albums' := albums[k := Joined(albums[k], m.id, capped)];
    forall n | n in media + [m] && n.group.Some? ensures Somewhere(albums', n.id) {
      if n in media {
        var p :| Holds(albums, p, n.id);
        JoinedHolds(albums, k, m.id, capped, p, n.id);
      } else {
        assert Holds(albums', Place(k, capped, |Side(albums[k], capped)|), m.id);
      }
    }
  }

  lemma EmptyAlbumKeeps(media: seq<Media>, albums: seq<Album>, group: Name)
    requires AlbumsOk(media, albums) && GroupedPlaced(media, albums)
    requires forall a :: a in albums ==> a.group != group
    ensures var albums' := albums + [Album(group, [], [], 0, 0, Collecting, 1)];
      AlbumsOk(media, albums') && GroupedPlaced(media, albums')
  {
    var a := Album(group, [], [], 0, 0, Collecting, 1);
    var albums' := albums + [a];
    forall p, id ensures Holds(albums', p, id) <==> Holds(albums, p, id) {
      ExtendHolds(albums, a, p, id);
    }
    forall p, id | Holds(albums', p, id) ensures BelongsAt(media, albums', p, id) {
      assert BelongsAt(media, albums, p, id);
    }
    forall m | m in media && m.group.Some? ensures Somewhere(albums', m.id) {
      var p :| Holds(albums, p, m.id);
      assert Holds(albums', p, m.id);
    }
  }

  // ---- every write keeps the invariant ------------------------------------------------------------------

  lemma AppendItem(media: seq<Media>, r: AcceptRequest, phase: Phase)
    requires ItemsOk(media) && UniqueUpdates(media) && phase in {Accepted, Capped} &&
      (phase == Capped ==> r.group.Some?)
    requires !Conflicts(media, r) && forall m :: m in media ==> m.id != IdOf(r)
    ensures ItemsOk(media + [NewMedia(r, phase)]) && UniqueUpdates(media + [NewMedia(r, phase)])
  {
    var all := media + [NewMedia(r, phase)];
    forall m | m in media ensures m.update != r.update {
      assert ItemOk(m);
    }
    forall i, j | 0 <= i < j < |all| ensures all[i].id != all[j].id && all[i].update != all[j].update {
      assert all[i] in media;
    }
  }

  lemma AcceptUngrouped(b: Body, r: AcceptRequest)
    requires JInv(b) && r.group.None? && |b.media| < MAX_MEDIA
    requires !Conflicts(b.media, r) && forall m :: m in b.media ==> m.id != IdOf(r)
    ensures var c := Body(b.revision + 1, b.media + [NewMedia(r, Accepted)], b.albums); JInv(c) && Extends(b, c)
  {
    AppendItem(b.media, r, Accepted);
    BelongsMore(b.media, NewMedia(r, Accepted), b.albums);
    assert (b.media + [NewMedia(r, Accepted)])[..|b.media|] == b.media;
  }

  /** The albums with the group's album, empty if it is new. */
  lemma FindOrCreate(b: Body, group: Name)
    requires JInv(b)
    ensures var (albums, k) := WithAlbum(b.albums, group);
      && AlbumsOk(b.media, albums) && GroupedPlaced(b.media, albums)
      && (forall a :: a in albums ==> AlbumRanked(a)) && SumAlbums(albums) == SumAlbums(b.albums)
      && b.albums <= albums
  {
    if AlbumOf(b.albums, group).None? {
      EmptyAlbumKeeps(b.media, b.albums, group);
      var a := Album(group, [], [], 0, 0, Collecting, 1);
      assert (b.albums + [a])[..|b.albums|] == b.albums;
    }
  }

  lemma JoinKeepsCount(b: Body, albums: seq<Album>, k: nat, m: Media)
    requires Counted(b) && k < |albums| && m.phase in {Accepted, Capped} && m.revision == 1
    requires albums[k].phase == Collecting && (forall a :: a in albums ==> AlbumRanked(a)) &&
      SumAlbums(albums) == SumAlbums(b.albums)
    ensures Counted(Body(b.revision + 1, b.media + [m], albums[k := Joined(albums[k], m.id, m.phase == Capped)]))
  {
    hide SumMedia, SumAlbums;
    var joined := Joined(albums[k], m.id, m.phase == Capped);
    SumAlbumsUpdate(albums, k, joined);
    SumAppend(b.media, m, b.albums, joined);
    assert AlbumRanked(albums[k]) && AlbumRanked(joined);
    hide AlbumRanked, Joined;
    forall a | a in albums[k := joined] ensures AlbumRanked(a) {
      assert a == joined || a in albums;
    }
  }

  lemma AcceptGrouped(b: Body, r: AcceptRequest, albums: seq<Album>, k: nat, phase: Phase)
    requires JInv(b) && r.group.Some? && |b.media| < MAX_MEDIA && |albums| <= MAX_ALBUMS
    requires !Conflicts(b.media, r) && forall m :: m in b.media ==> m.id != IdOf(r)
    requires AlbumsOk(b.media, albums) && GroupedPlaced(b.media, albums) && b.albums <= albums
    requires (forall a :: a in albums ==> AlbumRanked(a)) && SumAlbums(albums) == SumAlbums(b.albums)
    requires k < |albums| && albums[k].group == r.group.value && albums[k].phase == Collecting
    requires phase == if |albums[k].ordered| < MAX_ALBUM_ITEMS then Accepted else Capped
    requires phase == Capped ==> |albums[k].capped| < MAX_CAPPED_ALBUM_ITEMS
    ensures var c := Body(b.revision + 1, b.media + [NewMedia(r, phase)],
      albums[k := Joined(albums[k], IdOf(r), phase == Capped)]);
      JInv(c) && Extends(b, c)
  {
    hide PlacesKnown, PlacesUnique, UniqueGroups, GroupedPlaced, Counted, ItemsOk, UniqueUpdates, Conflicts,
      AlbumRanked;
    var m := NewMedia(r, phase);
    AppendItem(b.media, r, phase);
    JoinKeepsPlaces(b.media, albums, k, m);
    JoinKeepsGrouped(b.media, albums, k, m);
    JoinKeepsCount(b, albums, k, m);
    JoinKeepsShapes(albums, k, IdOf(r), phase == Capped);
    hide AlbumShape, AlbumContinues, Joined;
  }

  lemma JoinKeepsShapes(albums: seq<Album>, k: nat, id: MediaId, capped: bool)
    requires k < |albums| && albums[k].phase == Collecting && forall a :: a in albums ==> AlbumShape(a)
    requires if capped then |albums[k].capped| < MAX_CAPPED_ALBUM_ITEMS else |albums[k].ordered| < MAX_ALBUM_ITEMS
    ensures var albums' := albums[k := Joined(albums[k], id, capped)];
      && (forall a :: a in albums' ==> AlbumShape(a))
      && (forall i :: 0 <= i < |albums| ==> AlbumContinues(albums[i], albums'[i]))
  {
    var joined := Joined(albums[k], id, capped);
    assert AlbumShape(albums[k]) && AlbumShape(joined);
    forall a | a in albums[k := joined] ensures AlbumShape(a) {
      assert a == joined || a in albums;
    }
  }

  lemma AlbumLimit(b: Body, group: Name)
    requires JInv(b) && (AlbumOf(b.albums, group).Some? || |b.albums| < MAX_ALBUMS)
    ensures |WithAlbum(b.albums, group).0| <= MAX_ALBUMS
  {}

  /** What it takes for an accept to write, and what it writes. */
  lemma AcceptWrites(b: Body, r: AcceptRequest)
    requires Accept(b, r).Write?
    ensures !Conflicts(b.media, r) && |b.media| < MAX_MEDIA && forall m :: m in b.media ==> m.id != IdOf(r)
    ensures r.group.None? ==> Accept(b, r).next == Body(b.revision + 1, b.media + [NewMedia(r, Accepted)], b.albums)
    ensures r.group.Some? ==>
      var (albums, k) := WithAlbum(b.albums, r.group.value);
      var phase := if |albums[k].ordered| < MAX_ALBUM_ITEMS then Accepted else Capped;
      && (AlbumOf(b.albums, r.group.value).Some? || |b.albums| < MAX_ALBUMS)
      && albums[k].phase == Collecting && (phase == Capped ==> |albums[k].capped| < MAX_CAPPED_ALBUM_ITEMS)
      && Accept(b, r).next == Body(b.revision + 1, b.media + [NewMedia(r, phase)],
        albums[k := Joined(albums[k], IdOf(r), phase == Capped)])
  {
    hide Conflicts, WithAlbum;
  }

  lemma AcceptKeeps(b: Body, r: AcceptRequest)
    requires JInv(b) && Accept(b, r).Write?
    ensures JInv(Accept(b, r).next) && Extends(b, Accept(b, r).next) && Accept(b, r).next.revision == b.revision + 1
  {
    AcceptWrites(b, r);
    hide JInv, Extends, Conflicts, AlbumsOk, GroupedPlaced, AlbumRanked, SumAlbums, Accept, NewMedia, Joined;
    if r.group.None? {
      AcceptUngrouped(b, r);
    } else {
      FindOrCreate(b, r.group.value);
      AlbumLimit(b, r.group.value);
      var (albums, k) := WithAlbum(b.albums, r.group.value);
      hide WithAlbum;
      AcceptGrouped(b, r, albums, k, if |albums[k].ordered| < MAX_ALBUM_ITEMS then Accepted else Capped);
    }
  }

  lemma MoveKeepsItems(media: seq<Media>, i: nat, m: Media)
    requires ItemsOk(media) && UniqueUpdates(media) && i < |media| && Continues(media[i], m) && ItemOk(m)
    ensures ItemsOk(media[i := m]) && UniqueUpdates(media[i := m])
  {
    forall n | n in media[i := m] ensures ItemOk(n) {
      assert n == m || n in media;
    }
  }

  lemma MoveKeepsPlaces(media: seq<Media>, albums: seq<Album>, i: nat, m: Media)
    requires PlacesKnown(media, albums) && GroupedPlaced(media, albums) && i < |media| && Continues(media[i], m)
    ensures PlacesKnown(media[i := m], albums) && GroupedPlaced(media[i := m], albums)
  {
    var media' := media[i := m];
    forall p, id | Holds(albums, p, id) ensures BelongsAt(media', albums, p, id) {
      assert BelongsAt(media, albums, p, id);
      var j :| 0 <= j < |media| && media[j].id == id && media[j].group == Some(albums[p.album].group) &&
        (media[j].phase == Capped <==> p.capped);
      assert media'[j] in media';
    }
    forall n | n in media' && n.group.Some? ensures Somewhere(albums, n.id) {
      var j :| 0 <= j < |media'| && media'[j] == n;
      assert media[j] in media;
    }
  }

  /** An item moves on: same identity, same side. */
  lemma MoveItem(b: Body, i: nat, m: Media)
    requires JInv(b) && i < |b.media| && Continues(b.media[i], m) && ItemOk(m)
    requires m.revision == b.media[i].revision + 1 && MediaRanked(m)
    ensures var c := Body(b.revision + 1, b.media[i := m], b.albums); JInv(c) && Extends(b, c)
  {
    hide ItemsOk, UniqueUpdates, PlacesKnown, GroupedPlaced, PlacesUnique, UniqueGroups, AlbumShape, ItemOk;
    MoveKeepsItems(b.media, i, m);
    MoveKeepsPlaces(b.media, b.albums, i, m);
    SumMediaUpdate(b.media, i, m);
    forall n | n in b.media[i := m] ensures MediaRanked(n) {
      assert n == m || n in b.media;
    }
  }

  /** An album moves on: same sides. */
  lemma MoveAlbum(b: Body, k: nat, a: Album)
    requires JInv(b) && k < |b.albums| && AlbumRanked(a)
    requires a == b.albums[k].(phase := a.phase, revision := b.albums[k].revision + 1)
    ensures var c := Body(b.revision + 1, b.media, b.albums[k := a]); JInv(c) && Extends(b, c)
  {
    var albums := b.albums[k := a];
    SumAlbumsUpdate(b.albums, k, a);
    assert AlbumShape(b.albums[k]) && AlbumRanked(b.albums[k]);
    forall x | x in albums ensures (x == a || x in b.albums) && AlbumShape(x) && AlbumRanked(x) {}
    forall p, id ensures Holds(albums, p, id) <==> Holds(b.albums, p, id) {}
    forall p, id | Holds(albums, p, id) ensures BelongsAt(b.media, albums, p, id) {
      assert BelongsAt(b.media, b.albums, p, id);
    }
    forall m | m in b.media && m.group.Some? ensures Somewhere(albums, m.id) {
      var p :| Holds(b.albums, p, m.id);
      assert Holds(albums, p, m.id);
    }
    forall i | 0 <= i < |b.albums| ensures AlbumContinues(b.albums[i], albums[i]) {}
  }

  lemma RecordKeeps(b: Body, id: MediaId, file: Name, sha: Name, size: nat, maxBytes: nat)
    requires JInv(b) && RecordFile(b, id, file, sha, size, maxBytes).Write?
    ensures var c := RecordFile(b, id, file, sha, size, maxBytes).next;
      JInv(c) && Extends(b, c) && c.revision == b.revision + 1
  {
    var i := MediaById(b.media, id).value;
    ItemFacts(b, i);
    hide JInv, Extends;
    MoveItem(b, i, RecordFile(b, id, file, sha, size, maxBytes).next.media[i]);
  }

  lemma VoiceKeeps(b: Body, id: MediaId, o: VoiceOutcome)
    requires JInv(b) && SettleVoice(b, id, o).Write?
    ensures var c := SettleVoice(b, id, o).next; JInv(c) && Extends(b, c) && c.revision == b.revision + 1
  {
    var i := MediaById(b.media, id).value;
    hide JInv, Extends;
    ItemFacts(b, i);
    MoveItem(b, i, Settled(b.media[i], o));
  }

  lemma ItemFacts(b: Body, i: nat)
    requires JInv(b) && i < |b.media|
    ensures ItemOk(b.media[i]) && MediaRanked(b.media[i])
  {}

  lemma SealKeeps(b: Body, group: Name, order: seq<MediaId>)
    requires JInv(b) && Seal(b, group, order).Write?
    ensures var c := Seal(b, group, order).next; JInv(c) && Extends(b, c) && c.revision == b.revision + 1
  {
    var k := AlbumOf(b.albums, group).value;
    assert b.albums[k] in b.albums && AlbumRanked(b.albums[k]);
    hide JInv, Extends;
    MoveAlbum(b, k, Seal(b, group, order).next.albums[k]);
  }

  lemma AcknowledgeKeeps(b: Body, group: Name, expected: int, delivered: bool)
    requires JInv(b) && Acknowledge(b, group, expected, delivered).Write?
    ensures var c := Acknowledge(b, group, expected, delivered).next;
      JInv(c) && Extends(b, c) && c.revision == b.revision + 1
  {
    var k := AlbumOf(b.albums, group).value;
    assert b.albums[k] in b.albums && AlbumRanked(b.albums[k]);
    hide JInv, Extends;
    MoveAlbum(b, k, Acknowledge(b, group, expected, delivered).next.albums[k]);
  }

  lemma WriteKeeps(b: Body, q: Request, maxBytes: nat)
    requires JInv(b) && Decide(b, q, maxBytes).Write?
    ensures var c := Decide(b, q, maxBytes).next; JInv(c) && Extends(b, c) && c.revision == b.revision + 1
  {
    hide JInv, Extends, RecordFile, SettleVoice, Seal, Acknowledge;
    match q
    case AcceptItem(r) => AcceptKeeps(b, r);
    case Record(id, file, sha, size) => RecordKeeps(b, id, file, sha, size, maxBytes);
    case RecordVoice(id, o) => VoiceKeeps(b, id, o);
    case SealAlbum(group, order) => SealKeeps(b, group, order);
    case MarkAck(group, expected, delivered) => AcknowledgeKeeps(b, group, expected, delivered);
  }

  // ---- journals over a compare-and-swap store --------------------------------------------------------------

  /** A journal between its load and its commit: what it loaded and what it was asked. */
  datatype Journal = Idle | Loaded(body: Body, request: Request, maxBytes: nat)

  /** `commits` is history: how many commits have succeeded. */
  datatype Sys = Sys(disk: Option<Stored>, quarantined: bool, journals: seq<Journal>, commits: nat)

  datatype Step =
    | Load(journal: nat, request: Request, maxBytes: nat)
    | Finish(journal: nat)
    | Drop(journal: nat)

  ghost predicate Initial(s: Sys) {
    s.disk.None? && !s.quarantined && s.commits == 0 && forall j :: j in s.journals ==> j == Idle
  }

  function Current(s: Sys): (b: Body) { if s.disk.Some? then s.disk.value.body else INITIAL }

  /** An untouched state is committed only if nothing is stored, any other only over itself. */
  predicate Swaps(disk: Option<Stored>, loaded: Body) {
    if loaded.revision == 0 && loaded.media == [] && loaded.albums == [] then disk.None?
    else disk.Some? && disk.value.body.revision == loaded.revision && disk.value.checksum == loaded
  }

  ghost function Do(s: Sys, step: Step): (r: Sys) {
    if step.journal >= |s.journals| then s
    else
      var idle := s.(journals := s.journals[step.journal := Idle]);
      match step
      case Load(j, q, maxBytes) =>
        if s.quarantined || s.journals[j] != Idle then s
        else if s.disk.None? then s.(journals := s.journals[j := Loaded(INITIAL, q, maxBytes)])
        else if Valid(s.disk.value) then s.(journals := s.journals[j := Loaded(s.disk.value.body, q, maxBytes)])
        else s.(quarantined := true)
      case Finish(j) =>
        if s.journals[j] == Idle then s
        else
          var w := s.journals[j];
          var d := Decide(w.body, w.request, w.maxBytes);
          (match d
           case Keep(_) => idle
           case Refuse(_) => idle
           case Isolate => idle.(quarantined := true)
           case Write(next, _) =>
             if s.quarantined || !Swaps(s.disk, w.body) then idle
             else idle.(disk := Some(Stored(next, next)), commits := s.commits + 1))
      case Drop(j) => idle
  }

  ghost function After(s: Sys, steps: seq<Step>): (r: Sys)
    decreases |steps|
  {
    if steps == [] then s else After(Do(s, steps[0]), steps[1..])
  }

  ghost predicate SysInv(s: Sys) {
    && JInv(Current(s))
    && (s.disk.Some? ==> s.disk.value.checksum == s.disk.value.body && s.disk.value.body.revision >= 1)
    && s.commits == Current(s).revision
    && (forall j :: 0 <= j < |s.journals| && s.journals[j].Loaded? ==> JInv(s.journals[j].body))
  }

  lemma StepKeeps(s: Sys, step: Step)
    requires SysInv(s)
    ensures SysInv(Do(s, step)) && Extends(Current(s), Current(Do(s, step)))
    ensures s.quarantined ==> Do(s, step).quarantined && Do(s, step).disk == s.disk
  {
    hide JInv, Extends, Decide, Valid;
    if step.Finish? && step.journal < |s.journals| && s.journals[step.journal].Loaded? {
      var w := s.journals[step.journal];
      if Decide(w.body, w.request, w.maxBytes).Write? && Swaps(s.disk, w.body) {
        assert w.body == Current(s);
        WriteKeeps(w.body, w.request, w.maxBytes);
      }
    }
    ExtendsSelf(Current(s));
  }

  lemma ExtendsSelf(b: Body)
    ensures Extends(b, b)
  {}

  lemma {:induction false} RunKeeps(s: Sys, steps: seq<Step>)
    requires SysInv(s)
    ensures SysInv(After(s, steps)) && Extends(Current(s), Current(After(s, steps)))
    ensures s.quarantined ==> After(s, steps).quarantined && After(s, steps).disk == s.disk
    decreases |steps|
  {
    hide SysInv, Do, Extends, Current;
    if steps == [] {
      ExtendsSelf(Current(s));
    } else {
      var t := Do(s, steps[0]);
      StepKeeps(s, steps[0]);
      RunKeeps(t, steps[1..]);
      ExtendsChain(Current(s), Current(t), Current(After(s, steps)));
    }
  }

  lemma InitialOk(s: Sys)
    requires Initial(s)
    ensures SysInv(s)
  {
    forall j | 0 <= j < |s.journals| ensures s.journals[j] == Idle {
      assert s.journals[j] in s.journals;
    }
    assert JInv(INITIAL);
  }

  // ---- theorems ---------------------------------------------------------------------------------------------

  lemma {:induction false} SumMediaBound(media: seq<Media>)
    requires forall m :: m in media ==> MediaRanked(m)
    ensures |media| <= SumMedia(media) <= 3 * |media|
  {
    if media != [] {
      SumMediaBound(media[..|media| - 1]);
      assert MediaRanked(media[|media| - 1]);
    }
  }

  lemma {:induction false} SumAlbumsBound(albums: seq<Album>)
    requires forall a :: a in albums ==> AlbumRanked(a)
    ensures 0 <= SumAlbums(albums) <= 3 * |albums|
  {
    if albums != [] {
      SumAlbumsBound(albums[..|albums| - 1]);
      assert AlbumRanked(albums[|albums| - 1]);
    }
  }

  /** Whatever is stored after any run is a record that `ValidateState` accepts. */
  lemma CommittedIsValid(start: Sys, steps: seq<Step>)
    requires Initial(start)
    ensures After(start, steps).disk.Some? ==> Valid(After(start, steps).disk.value)
  {
    InitialOk(start);
    RunKeeps(start, steps);
  }

  /**
   * Conservation: the state revision is the sum of the media revisions and of the albums' own
   * transitions, it counts the commits, and so no binding ever sees more than 1728 of them.
   */
  lemma CommitsConserved(start: Sys, steps: seq<Step>)
    requires Initial(start)
    ensures var s := After(start, steps);
      var b := Current(s);
      && s.commits == b.revision == SumMedia(b.media) + SumAlbums(b.albums)
      && (forall a :: a in b.albums ==> a.received == |a.ordered| + |a.capped| && a.failed == |a.capped|)
      && s.commits <= 3 * MAX_MEDIA + 3 * MAX_ALBUMS
  {
    InitialOk(start);
    RunKeeps(start, steps);
    var b := Current(After(start, steps));
    hide After, ItemsOk, AlbumsOk, GroupedPlaced, UniqueUpdates;
    SumMediaBound(b.media);
    SumAlbumsBound(b.albums);
    forall a | a in b.albums ensures a.received == |a.ordered| + |a.capped| && a.failed == |a.capped| {
      assert AlbumRanked(a);
    }
  }

  /** Nothing is lost or reordered, phases only move forward, and update identifiers stay unique. */
  lemma NothingLost(start: Sys, before: seq<Step>, after: seq<Step>)
    requires Initial(start)
    ensures var s := After(start, before);
      var t := After(s, after);
      Extends(Current(s), Current(t)) && UniqueUpdates(Current(t).media)
  {
    InitialOk(start);
    RunKeeps(start, before);
    RunKeeps(After(start, before), after);
  }

  /** An accept that was answered has its item in the state it leaves, capped exactly if it says so. */
  lemma AcceptStores(b: Body, r: AcceptRequest)
    requires JInv(b) && (Accept(b, r).Write? || Accept(b, r).Keep?)
    ensures var d := Accept(b, r);
      var c := if d.Write? then d.next else b;
      StoredAs(c.media, r, d.reply == RCapped)
  {
    var d := Accept(b, r);
    if d.Write? {
      AcceptWrites(b, r);
      var m := d.next.media[|b.media|];
      assert m in d.next.media;
    } else {
      FreshKeeps(b, r);
    }
  }

  ghost predicate StoredAs(media: seq<Media>, r: AcceptRequest, capped: bool) {
    exists i :: 0 <= i < |media| && media[i].id == IdOf(r) && Exact(media[i], r) &&
      (media[i].phase == Capped <==> capped)
  }

  /** The second answer `capped` of the source is never reached: a capped item is found first. */
  lemma FreshKeeps(b: Body, r: AcceptRequest)
    requires JInv(b) && Accept(b, r).Keep?
    ensures MediaById(b.media, IdOf(r)).Some? && Exact(b.media[MediaById(b.media, IdOf(r)).value], r)
  {
    if MediaById(b.media, IdOf(r)).None? {
      FreshNowhere(b.media, b.albums, IdOf(r));
      var k := AlbumOf(b.albums, r.group.value);
      if k.Some? && IdOf(r) in b.albums[k.value].capped {
        var i :| 0 <= i < |b.albums[k.value].capped| && b.albums[k.value].capped[i] == IdOf(r);
        assert Holds(b.albums, Place(k.value, true, i), IdOf(r));
      }
    }
  }

  // ---- answers ------------------------------------------------------------------------------------------------

  /** What a journal answers when it finishes: nothing if its commit lost the race or the binding is quarantined. */
  ghost function Answer(s: Sys, j: nat): (r: Option<Reply>)
    requires j < |s.journals|
  {
    var w := s.journals[j];
    if w == Idle then None
    else
      match Decide(w.body, w.request, w.maxBytes)
      case Keep(reply) => Some(reply)
      case Write(_, reply) => if s.quarantined || !Swaps(s.disk, w.body) then None else Some(reply)
      case _ => None
  }

  /** What a journal has loaded was stored once, and has only been extended since. */
  ghost predicate Behind(s: Sys) {
    forall j :: 0 <= j < |s.journals| && s.journals[j].Loaded? ==> Extends(s.journals[j].body, Current(s))
  }

  lemma BehindKeeps(s: Sys, step: Step)
    requires SysInv(s) && Behind(s)
    ensures Behind(Do(s, step))
  {
    hide SysInv, Extends, Decide, Valid, Swaps;
    var t := Do(s, step);
    StepKeeps(s, step);
    ExtendsSelf(Current(s));
    forall j | 0 <= j < |t.journals| && t.journals[j].Loaded? ensures Extends(t.journals[j].body, Current(t)) {
      if s.journals[j] == t.journals[j] {
        ExtendsChain(s.journals[j].body, Current(s), Current(t));
      }
    }
  }

  lemma {:induction false} RunBehind(s: Sys, steps: seq<Step>)
    requires SysInv(s) && Behind(s)
    ensures Behind(After(s, steps))
    decreases |steps|
  {
    if steps != [] {
      hide SysInv, Behind, Do;
      StepKeeps(s, steps[0]);
      BehindKeeps(s, steps[0]);
      RunBehind(Do(s, steps[0]), steps[1..]);
    }
  }

  /** Once an accept has been answered, its item is stored, capped exactly if the answer says so. */
  lemma AnsweredIsStored(s: Sys, j: nat, r: AcceptRequest)
    requires SysInv(s) && Behind(s) && j < |s.journals| && s.journals[j].Loaded? &&
      s.journals[j].request == AcceptItem(r)
    requires Answer(s, j).Some?
    ensures StoredAs(Current(Do(s, Finish(j))).media, r, Answer(s, j) == Some(RCapped))
  {
    var w, t := s.journals[j], Do(s, Finish(j));
    assert Decide(w.body, w.request, w.maxBytes) == Accept(w.body, r);
    AcceptStores(w.body, r);
    if Accept(w.body, r).Keep? {
      StoredStays(w.body, Current(s), r, Answer(s, j) == Some(RCapped));
    }
    hide JInv, Extends, StoredAs, Accept;
  }

  lemma StoredStays(b: Body, c: Body, r: AcceptRequest, capped: bool)
    requires Extends(b, c) && StoredAs(b.media, r, capped)
    ensures StoredAs(c.media, r, capped)
  {
    var i :| 0 <= i < |b.media| && b.media[i].id == IdOf(r) && Exact(b.media[i], r) &&
      (b.media[i].phase == Capped <==> capped);
    assert Continues(b.media[i], c.media[i]);
  }

  /**
   * Exactly once: whatever happens after any journal has answered an accept, asking again changes
   * nothing and gives `capped` or `duplicate` as before, also after its album was sealed.
   */
  lemma ReplayIsStable(start: Sys, before: seq<Step>, j: nat, r: AcceptRequest, after: seq<Step>)
    requires Initial(start)
    requires var s := After(start, before);
      j < |s.journals| && s.journals[j].Loaded? && s.journals[j].request == AcceptItem(r) && Answer(s, j).Some?
    ensures var s := After(start, before);
      Accept(Current(After(Do(s, Finish(j)), after)), r) ==
        Keep(if Answer(s, j) == Some(RCapped) then RCapped else RDuplicate)
  {
    InitialOk(start);
    assert Behind(start) by {
      assert forall j :: 0 <= j < |start.journals| ==> start.journals[j] in start.journals;
    }
    RunKeeps(start, before);
    RunBehind(start, before);
    var s := After(start, before);
    var t := Do(s, Finish(j));
    AnsweredIsStored(s, j, r);
    StepKeeps(s, Finish(j));
    RunKeeps(t, after);
    hide After, JInv, Extends, Do, Behind, Answer, StoredAs;
    Replays(Current(t), Current(After(t, after)), r, Answer(s, j) == Some(RCapped));
  }

  lemma Replays(b: Body, c: Body, r: AcceptRequest, capped: bool)
    requires Extends(b, c) && JInv(c) && StoredAs(b.media, r, capped)
    ensures Accept(c, r) == Keep(if capped then RCapped else RDuplicate)
  {
    var i :| 0 <= i < |b.media| && b.media[i].id == IdOf(r) && Exact(b.media[i], r) &&
      (b.media[i].phase == Capped <==> capped);
    assert Continues(b.media[i], c.media[i]);
    OnlyAt(c.media, i);
    hide JInv, Extends, WithAlbum, AlbumOf;
    assert c.media[i] in c.media;
  }

  lemma OnlyAt(media: seq<Media>, i: nat)
    requires UniqueItems(media) && UniqueUpdates(media) && i < |media|
    ensures MediaById(media, media[i].id) == Some(i)
    ensures forall m :: m in media && m.update == media[i].update ==> m == media[i]
  {}

  /** Quarantine is permanent: nothing is stored after it. */
  lemma QuarantineAbsorbs(start: Sys, before: seq<Step>, after: seq<Step>)
    requires Initial(start) && After(start, before).quarantined
    ensures After(After(start, before), after).quarantined
    ensures After(After(start, before), after).disk == After(start, before).disk
  {
    InitialOk(start);
    RunKeeps(start, before);
    RunKeeps(After(start, before), after);
  }
}
