/**
 * `validateState` of the media journal: a loop over items and albums that grows sets and a map.
 * It decides the declarative predicate `Valid`: every grouped item lies in exactly one place of
 * one album, on the ordered side or on the capped side, and every other item in none.
 */
module MediaValidator {
  import opened Common
  import opened MediaJournal

  // ---- the declarative predicate --------------------------------------------------------------------

  predicate ItemOk(m: Media) {
    && m.id == MediaId(m.update, m.message, m.kind, m.source)
    && m.revision >= 1
    && (m.phase in {Recorded, Transcribed, Degraded, Cancelled} ==> m.file.Some? && m.sha.Some? && m.size.Some?)
    && (m.phase in {Accepted, Capped} ==> m.file.None? && m.sha.None? && m.size.None?)
    && (m.phase == Transcribed <==> m.transcript.Some?)
    && (m.phase == Capped ==> m.group.Some?)
  }

  ghost predicate UniqueItems(media: seq<Media>) {
    forall i, j :: 0 <= i < j < |media| ==> media[i].id != media[j].id
  }

  ghost predicate ItemsOk(media: seq<Media>) {
    UniqueItems(media) && forall m :: m in media ==> ItemOk(m)
  }

  /** A position in an album: on the ordered side or on the capped side. */
  datatype Place = Place(album: nat, capped: bool, pos: nat)

  function Side(a: Album, capped: bool): (r: seq<MediaId>) { if capped then a.capped else a.ordered }

  ghost predicate Holds(albums: seq<Album>, p: Place, id: MediaId) {
    p.album < |albums| && p.pos < |Side(albums[p.album], p.capped)| && Side(albums[p.album], p.capped)[p.pos] == id
  }

  ghost predicate Somewhere(albums: seq<Album>, id: MediaId) {
    exists p :: Holds(albums, p, id)
  }

  predicate AlbumShape(a: Album) {
    && |a.ordered| <= MAX_ALBUM_ITEMS && |a.capped| <= MAX_CAPPED_ALBUM_ITEMS
    && a.received >= |a.ordered| && a.failed >= 0 && a.revision >= 1
  }

  /** The item at this place belongs to the album's group and to this side. */
  ghost predicate BelongsAt(media: seq<Media>, albums: seq<Album>, p: Place, id: MediaId)
    requires p.album < |albums|
  {
    exists m :: m in media && m.id == id && m.group == Some(albums[p.album].group) && (m.phase == Capped <==> p.capped)
  }

  ghost predicate UniqueGroups(albums: seq<Album>) {
    forall i, j :: 0 <= i < j < |albums| ==> albums[i].group != albums[j].group
  }

  ghost predicate PlacesUnique(albums: seq<Album>) {
    forall p, q, id :: Holds(albums, p, id) && Holds(albums, q, id) ==> p == q
  }

  ghost predicate PlacesKnown(media: seq<Media>, albums: seq<Album>) {
    forall p, id :: Holds(albums, p, id) ==> BelongsAt(media, albums, p, id)
  }

  ghost predicate AlbumsOk(media: seq<Media>, albums: seq<Album>) {
    && (forall a :: a in albums ==> AlbumShape(a))
    && UniqueGroups(albums) && PlacesUnique(albums) && PlacesKnown(media, albums)
  }

  ghost predicate GroupedPlaced(media: seq<Media>, albums: seq<Album>) {
    forall m :: m in media && m.group.Some? ==> Somewhere(albums, m.id)
  }

  ghost predicate ValidBody(b: Body) {
    && b.revision >= 0 && |b.media| <= MAX_MEDIA && |b.albums| <= MAX_ALBUMS
    && ItemsOk(b.media) && AlbumsOk(b.media, b.albums) && GroupedPlaced(b.media, b.albums)
  }

  ghost predicate Valid(s: Stored) {
    ValidBody(s.body) && s.checksum == s.body
  }

  // ---- the loop --------------------------------------------------------------------------------------

  ghost predicate Distinct(ids: seq<MediaId>) {
    forall i, j :: 0 <= i < j < |ids| ==> ids[i] != ids[j]
  }

  /** `new Set(ids).size === ids.length`. */
  predicate SameSize(ids: seq<MediaId>) { |set id | id in ids| == |ids| }

  lemma {:induction false} SetSize(ids: seq<MediaId>)
    ensures |set id | id in ids| <= |ids|
    ensures SameSize(ids) <==> Distinct(ids)
  {
    if ids != [] {
      var n := |ids| - 1;
      var init, last := ids[..n], ids[n];
      SetSize(init);
      assert ids == init + [last];
      assert (set id | id in ids) == (set id | id in init) + {last};
      if last in init {
        assert (set id | id in ids) == (set id | id in init);
        var i :| 0 <= i < n && ids[i] == last;
      } else {
        assert Distinct(ids) <==> Distinct(init);
      }
    }
  }

  /** What the second loop asks of one album, given the items and the albums before it. */
  predicate AlbumAccepted(a: Album, byId: map<MediaId, Media>, groups: set<Name>, members: set<MediaId>) {
    && a.group !in groups
    && AlbumShape(a)
    && SameSize(a.ordered) && SameSize(a.capped)
    && (forall id :: id in a.ordered ==>
          id in byId && byId[id].phase != Capped && byId[id].group == Some(a.group) && id !in members)
    && (forall id :: id in a.capped ==>
          id in byId && byId[id].phase == Capped && byId[id].group == Some(a.group) && id !in members &&
            id !in a.ordered)
  }

  ghost predicate Indexed(media: seq<Media>, byId: map<MediaId, Media>) {
    && (forall m :: m in media ==> m.id in byId && byId[m.id] == m)
    && (forall id :: id in byId ==> byId[id] in media && byId[id].id == id)
  }

  ghost predicate Members(albums: seq<Album>, members: set<MediaId>) {
    forall id :: id in members <==> Somewhere(albums, id)
  }

  lemma ExtendHolds(albums: seq<Album>, a: Album, p: Place, id: MediaId)
    ensures Holds(albums + [a], p, id) <==>
      Holds(albums, p, id) || (p.album == |albums| && p.pos < |Side(a, p.capped)| && Side(a, p.capped)[p.pos] == id)
  {}

  lemma ExtendMembers(albums: seq<Album>, a: Album, members: set<MediaId>)
    requires Members(albums, members)
    ensures Members(albums + [a], members + (set id | id in a.ordered) + (set id | id in a.capped))
  {
    forall id ensures id in members + (set x | x in a.ordered) + (set x | x in a.capped) <==>
      Somewhere(albums + [a], id) {
      if Somewhere(albums, id) {
        var p :| Holds(albums, p, id);
        assert Holds(albums + [a], p, id);
      }
      if id in a.ordered {
        var k :| 0 <= k < |a.ordered| && a.ordered[k] == id;
        assert Holds(albums + [a], Place(|albums|, false, k), id);
      }
      if id in a.capped {
        var k :| 0 <= k < |a.capped| && a.capped[k] == id;
        assert Holds(albums + [a], Place(|albums|, true, k), id);
      }
      if Somewhere(albums + [a], id) {
        var p :| Holds(albums + [a], p, id);
        ExtendHolds(albums, a, p, id);
      }
    }
  }

  /** Sound: an accepted album keeps the albums so far well placed. */
  lemma AcceptedExtends(media: seq<Media>, albums: seq<Album>, a: Album, byId: map<MediaId, Media>, groups: set<Name>,
      members: set<MediaId>)
    requires AlbumsOk(media, albums) && Indexed(media, byId) && Members(albums, members)
    requires groups == set x | x in albums :: x.group
    requires AlbumAccepted(a, byId, groups, members)
    ensures AlbumsOk(media, albums + [a])
  {
    SetSize(a.ordered);
    SetSize(a.capped);
    var all := albums + [a];
    forall p, id | Holds(all, p, id) ensures BelongsAt(media, all, p, id) {
      ExtendHolds(albums, a, p, id);
      if p.album == |albums| {
        assert byId[id] in media;
      } else {
        assert BelongsAt(media, albums, p, id);
      }
    }
    forall p, q, id | Holds(all, p, id) && Holds(all, q, id) ensures p == q {
      ExtendHolds(albums, a, p, id);
      ExtendHolds(albums, a, q, id);
      assert p.album < |albums| || q.album < |albums| ==> Somewhere(albums, id);
    }
  }

  lemma PrefixOk(media: seq<Media>, albums: seq<Album>, a: Album)
    requires AlbumsOk(media, albums + [a])
    ensures AlbumsOk(media, albums)
  {
    var all := albums + [a];
    forall p, id | Holds(albums, p, id) ensures Holds(all, p, id) && BelongsAt(media, albums, p, id) {
      assert Holds(all, p, id) && BelongsAt(media, all, p, id);
    }
    forall x | x in albums ensures AlbumShape(x) {
      assert x in all;
    }
    forall i, j | 0 <= i < j < |albums| ensures albums[i].group != albums[j].group {
      assert all[i].group != all[j].group;
    }
  }

  /** An identifier on one side of the last album is a known item of it, and is nowhere else. */
  lemma LastPlace(media: seq<Media>, albums: seq<Album>, a: Album, byId: map<MediaId, Media>, members: set<MediaId>,
      capped: bool, k: nat)
    requires UniqueItems(media) && AlbumsOk(media, albums + [a]) && Indexed(media, byId) && Members(albums, members)
    requires k < |Side(a, capped)|
    ensures var id := Side(a, capped)[k];
      && id in byId && (byId[id].phase == Capped <==> capped) && byId[id].group == Some(a.group) && id !in members
      && id !in Side(a, !capped)
      && (forall l :: 0 <= l < |Side(a, capped)| && l != k ==> Side(a, capped)[l] != id)
  {
    var all, id, p := albums + [a], Side(a, capped)[k], Place(|albums|, capped, k);
    assert Holds(all, p, id) && BelongsAt(media, all, p, id);
    if Somewhere(albums, id) {
      var q :| Holds(albums, q, id);
      assert Holds(all, q, id);
    }
    forall c, l | 0 <= l < |Side(a, c)| && Side(a, c)[l] == id ensures c == capped && l == k {
      assert Holds(all, Place(|albums|, c, l), id);
    }
  }

  /** Complete: a well-placed album passes. */
  lemma ExtendedAccepts(media: seq<Media>, albums: seq<Album>, a: Album, byId: map<MediaId, Media>, groups: set<Name>,
      members: set<MediaId>)
    requires UniqueItems(media) && AlbumsOk(media, albums + [a]) && Indexed(media, byId) && Members(albums, members)
    requires groups == set x | x in albums :: x.group
    ensures AlbumsOk(media, albums) && AlbumAccepted(a, byId, groups, members)
  {
    var all := albums + [a];
    PrefixOk(media, albums, a);
    assert all[|albums|] == a && a in all;
    assert forall i :: 0 <= i < |albums| ==> all[i] == albums[i];
    forall capped, k | 0 <= k < |Side(a, capped)|
      ensures var id := Side(a, capped)[k];
        && id in byId && (byId[id].phase == Capped <==> capped) && byId[id].group == Some(a.group) && id !in members
        && id !in Side(a, !capped)
        && (forall l :: 0 <= l < |Side(a, capped)| && l != k ==> Side(a, capped)[l] != id)
    {
      LastPlace(media, albums, a, byId, members, capped, k);
    }
    assert Distinct(Side(a, false)) && Distinct(Side(a, true));
    SetSize(a.ordered);
    SetSize(a.capped);
    forall id | id in a.ordered
      ensures id in byId && byId[id].phase != Capped && byId[id].group == Some(a.group) && id !in members
    {
      var k :| 0 <= k < |Side(a, false)| && Side(a, false)[k] == id;
    }
    forall id | id in a.capped
      ensures id in byId && byId[id].phase == Capped && byId[id].group == Some(a.group) && id !in members &&
        id !in a.ordered
    {
      var k :| 0 <= k < |Side(a, true)| && Side(a, true)[k] == id;
    }
  }

  /** The first loop: indexes the items, or stops at one that is malformed or repeated. */
  method IndexMedia(media: seq<Media>) returns (ok: bool, byId: map<MediaId, Media>)
    ensures ok <==> ItemsOk(media)
    ensures ok ==> Indexed(media, byId)
  {
    byId := map[];
    var i := 0;
    while i < |media|
      invariant 0 <= i <= |media|
      invariant ItemsOk(media[..i]) && Indexed(media[..i], byId)
    {
      var item := media[i];
      assert item in media;
      if item.id in byId || !ItemOk(item) {
        if item.id in byId {
          var k :| 0 <= k < i && media[..i][k] == byId[item.id];
          assert media[k].id == media[i].id;
        }
        return false, byId;
      }
      byId := byId[item.id := item];
      assert media[..i + 1] == media[..i] + [item];
      i := i + 1;
    }
    assert media[..i] == media;
    ok := true;
  }

  lemma EmptyOk(media: seq<Media>)
    ensures AlbumsOk(media, []) && Members([], {})
  {}

  /** The second loop: grows the groups and the membership set album by album. */
  method CheckAlbums(media: seq<Media>, albums: seq<Album>, byId: map<MediaId, Media>)
      returns (ok: bool, members: set<MediaId>)
    requires UniqueItems(media) && Indexed(media, byId)
    ensures ok <==> AlbumsOk(media, albums)
    ensures ok ==> Members(albums, members)
  {
    hide AlbumAccepted, AlbumsOk, Members, Indexed, UniqueItems;
    var groups: set<Name>, i := {}, 0;
    members := {};
    assert albums[..0] == [];
    EmptyOk(media);
    while i < |albums|
      invariant 0 <= i <= |albums|
      invariant groups == set x | x in albums[..i] :: x.group
      invariant AlbumsOk(media, albums[..i]) && Members(albums[..i], members)
    {
      var a := albums[i];
      assert albums[..i + 1] == albums[..i] + [a];
      if !AlbumAccepted(a, byId, groups, members) {
        Refused(media, albums, i, byId, groups, members);
        return false, members;
      }
      AcceptedExtends(media, albums[..i], a, byId, groups, members);
      ExtendMembers(albums[..i], a, members);
      members := members + (set id | id in a.ordered) + (set id | id in a.capped);
      groups := groups + {a.group};
      i := i + 1;
    }
    assert albums[..i] == albums;
    ok := true;
  }

  lemma Refused(media: seq<Media>, albums: seq<Album>, i: nat, byId: map<MediaId, Media>, groups: set<Name>,
      members: set<MediaId>)
    requires i < |albums| && UniqueItems(media) && Indexed(media, byId) && Members(albums[..i], members)
    requires groups == set x | x in albums[..i] :: x.group
    requires !AlbumAccepted(albums[i], byId, groups, members)
    ensures !AlbumsOk(media, albums)
  {
    if AlbumsOk(media, albums) {
      PrefixesOk(media, albums, i + 1);
      assert albums[..i + 1] == albums[..i] + [albums[i]];
      ExtendedAccepts(media, albums[..i], albums[i], byId, groups, members);
    }
  }

  lemma {:induction false} PrefixesOk(media: seq<Media>, albums: seq<Album>, n: nat)
    requires n <= |albums| && AlbumsOk(media, albums)
    ensures AlbumsOk(media, albums[..n])
    decreases |albums| - n
  {
    if n == |albums| {
      assert albums[..n] == albums;
    } else {
      PrefixesOk(media, albums, n + 1);
      assert albums[..n + 1] == albums[..n] + [albums[n]];
      PrefixOk(media, albums[..n], albums[n]);
    }
  }

  /** `validateState`: accepts exactly the valid records. */
  method ValidateState(s: Stored) returns (ok: bool)
    ensures ok <==> Valid(s)
  {
    var b := s.body;
    if b.revision < 0 || |b.media| > MAX_MEDIA || |b.albums| > MAX_ALBUMS {
      return false;
    }
    var indexed, byId := IndexMedia(b.media);
    if !indexed {
      return false;
    }
    var checked, members := CheckAlbums(b.media, b.albums, byId);
    if !checked {
      return false;
    }
    UngroupedNowhere(b.media, b.albums);
    if exists m :: m in b.media && (if m.group.None? then m.id in members else m.id !in members) {
      return false;
    }
    ok := s.checksum == b;
  }

  lemma UngroupedNowhere(media: seq<Media>, albums: seq<Album>)
    requires UniqueItems(media) && PlacesKnown(media, albums)
    ensures forall m :: m in media && m.group.None? ==> !Somewhere(albums, m.id)
  {
    forall m | m in media && Somewhere(albums, m.id) ensures m.group.Some? {
      var p :| Holds(albums, p, m.id);
      assert BelongsAt(media, albums, p, m.id);
    }
  }
}
