/**
 * The album matcher of the clustering service (`albums.js`): each new photo
 * is filed under a key naming the album it falls inside, or the pair of
 * neighbouring albums it falls between, and the resulting dictionary of
 * photo lists is what gets clustered.
 *
 * Albums come sorted by start date from newest to oldest.  The dictionary is
 * a map from keys to photo lists; `Get` reads a missing key as the empty
 * list.  The `async` helpers of the source never wait for anything and are
 * modelled as ordinary methods.
 */
module Albums {
  import opened Wrappers

  /** An album: its id and the dates of its first and last photo. */
  datatype Album = Album(id: string, start: real, end: real)

  /** A photo and its date. */
  datatype Photo = Photo(id: string, date: real)

  /** The key of one album (`start.id`), or of the gap between two (`start.id:end.id`). */
  function KeyOf(albumStart: Album, albumEnd: Option<Album>): string {
    match albumEnd
    case None => albumStart.id
    case Some(e) => albumStart.id + ":" + e.id
  }

  /** The photos listed under `key`, none when it is absent. */
  function Get(m: map<string, seq<Photo>>, key: string): seq<Photo> {
    if key in m then m[key] else []
  }

  /** `addPhotoToClusters` on a dictionary value: append to the list under `key`, or start one. */
  function Add(m: map<string, seq<Photo>>, key: string, photo: Photo): map<string, seq<Photo>> {
    m[key := Get(m, key) + [photo]]
  }

  /** Adding appends the photo under its key and changes no other key. */
  lemma AddAppends(m: map<string, seq<Photo>>, key: string, photo: Photo, k: string)
    ensures Get(Add(m, key, photo), k) == Get(m, k) + (if k == key then [photo] else [])
  {
  }

  /** No key of the dictionary lists no photo. */
  predicate NoEmptyLists(m: map<string, seq<Photo>>) {
    forall k :: k in m ==> m[k] != []
  }

  /** Add the photo under each key in turn. */
  function AddAll(m: map<string, seq<Photo>>, keys: seq<string>, photo: Photo): map<string, seq<Photo>>
    decreases |keys|
  {
    if keys == [] then m
    else Add(AddAll(m, keys[..|keys| - 1], photo), keys[|keys| - 1], photo)
  }

  /** How often `key` occurs in `keys`. */
  function Count(keys: seq<string>, key: string): nat
    decreases |keys|
  {
    if keys == [] then 0
    else Count(keys[..|keys| - 1], key) + (if keys[|keys| - 1] == key then 1 else 0)
  }

  /** The count is at most the number of keys, and positive exactly when the key occurs. */
  lemma {:induction false} CountBounds(keys: seq<string>, key: string)
    ensures Count(keys, key) <= |keys|
    ensures Count(keys, key) > 0 <==> key in keys
    decreases |keys|
  {
    if keys != [] {
      var init := keys[..|keys| - 1];
      assert keys == init + [keys[|keys| - 1]];
      CountBounds(init, key);
    }
  }

  /** `n` copies of a photo. */
  function Copies(photo: Photo, n: nat): seq<Photo> {
    seq(n, _ => photo)
  }

  /** Adding under several keys appends one copy of the photo per occurrence of each key. */
  lemma {:induction false} AddAllAppendsCopies(m: map<string, seq<Photo>>, keys: seq<string>, photo: Photo, key: string)
    ensures Get(AddAll(m, keys, photo), key) == Get(m, key) + Copies(photo, Count(keys, key))
    decreases |keys|
  {
    if keys != [] {
      var init, last := keys[..|keys| - 1], keys[|keys| - 1];
      assert keys == init + [last];
      var before := AddAll(m, init, photo);
      AddAllAppendsCopies(m, init, photo, key);
      var c := Count(init, key);
      AddAppends(before, last, photo, key);
      if last == key {
        assert Count(keys, key) == c + 1;
        assert Copies(photo, c) + [photo] == Copies(photo, c + 1);
      } else {
        assert Count(keys, key) == c;
      }
    }
  }

  /**
   * Adding under several keys changes the list of a key exactly when the key
   * is among them, and by at most one photo per key given.
   */
  lemma AddAllChangesOnlyItsKeys(m: map<string, seq<Photo>>, keys: seq<string>, photo: Photo, key: string)
    ensures Get(AddAll(m, keys, photo), key) == Get(m, key) <==> key !in keys
    ensures |Get(AddAll(m, keys, photo), key)| <= |Get(m, key)| + |keys|
  {
    AddAllAppendsCopies(m, keys, photo, key);
    CountBounds(keys, key);
    var after := Get(AddAll(m, keys, photo), key);
    assert |after| == |Get(m, key)| + Count(keys, key);
    if key !in keys {
      assert Copies(photo, 0) == [];
    }
  }

  /** Adding under any keys never leaves a key without photos. */
  lemma {:induction false} AddAllKeepsNoEmptyLists(m: map<string, seq<Photo>>, keys: seq<string>, photo: Photo)
    requires NoEmptyLists(m)
    ensures NoEmptyLists(AddAll(m, keys, photo))
    decreases |keys|
  {
    if keys != [] {
      AddAllKeepsNoEmptyLists(m, keys[..|keys| - 1], photo);
    }
  }

  /** `photoInsideCluster`: strictly after the album's start and strictly before its end. */
  predicate PhotoInsideCluster(album: Album, photo: Photo) {
    album.start < photo.date && album.end > photo.date
  }

  /**
   * `photoBetweenClusters`: both albums exist and the photo falls strictly
   * after the newer one's end and strictly before the older one's start.
   */
  predicate PhotoBetweenClusters(newerAlbum: Option<Album>, olderAlbum: Option<Album>, photo: Photo) {
    match (newerAlbum, olderAlbum)
    case (Some(newer), Some(older)) => newer.end < photo.date && older.start > photo.date
    case _ => false
  }

  /** The album after position `i`, absent past the end (`albums[i + 1]` is `undefined`). */
  function Next(albums: seq<Album>, i: nat): Option<Album> {
    if i + 1 < |albums| then Some(albums[i + 1]) else None
  }

  /**
   * The key the photo is filed under at album `i` of `photosToClusterize`, if
   * any: inside the album takes precedence over between it and the next.
   */
  function TargetAt(albums: seq<Album>, i: nat, photo: Photo): seq<string>
    requires i < |albums|
  {
    if PhotoInsideCluster(albums[i], photo) then [KeyOf(albums[i], None)]
    else if PhotoBetweenClusters(Some(albums[i]), Next(albums, i), photo) then [KeyOf(albums[i], Next(albums, i))]
    else []
  }

  /** The keys `photosToClusterize` files the photo under at the first `n` albums, in order. */
  function Targets(albums: seq<Album>, n: nat, photo: Photo): seq<string>
    requires n <= |albums|
    decreases n
  {
    if n == 0 then [] else Targets(albums, n - 1, photo) + TargetAt(albums, n - 1, photo)
  }

  /**
   * The keys `pastAlbumsToProcess` files a photo under: the matching albums
   * and gaps when it is older than the newest album's end, and the newest
   * album alone otherwise.
   */
  function KeysFor(albums: seq<Album>, photo: Photo): seq<string>
    requires |albums| > 0
  {
    if photo.date < albums[0].end then Targets(albums, |albums|, photo) else [KeyOf(albums[0], None)]
  }

  /**
   * At one album the photo gets at most one key: the album's own when it
   * falls inside it, otherwise the key of the gap to the next album when it
   * falls in that gap, otherwise none.
   */
  lemma TargetAtCases(albums: seq<Album>, i: nat, photo: Photo)
    requires i < |albums|
    ensures |TargetAt(albums, i, photo)| <= 1
    ensures PhotoInsideCluster(albums[i], photo) ==> TargetAt(albums, i, photo) == [albums[i].id]
    ensures !PhotoInsideCluster(albums[i], photo) && PhotoBetweenClusters(Some(albums[i]), Next(albums, i), photo) ==>
              i + 1 < |albums| && TargetAt(albums, i, photo) == [albums[i].id + ":" + albums[i + 1].id]
    ensures !PhotoInsideCluster(albums[i], photo) && !PhotoBetweenClusters(Some(albums[i]), Next(albums, i), photo) ==>
              TargetAt(albums, i, photo) == []
  {
  }

  /** Looking at `n` albums gives at most `n` keys, and every key found at one of them. */
  lemma {:induction false} TargetsCollectsTargetAt(albums: seq<Album>, n: nat, photo: Photo)
    requires n <= |albums|
    ensures |Targets(albums, n, photo)| <= n
    ensures forall i, k :: 0 <= i < n && k in TargetAt(albums, i, photo) ==> k in Targets(albums, n, photo)
    decreases n
  {
    if n > 0 {
      TargetsCollectsTargetAt(albums, n - 1, photo);
      TargetAtCases(albums, n - 1, photo);
    }
  }

  /**
   * A photo older than the newest album's end is filed under every album it
   * falls inside; a later photo under the newest album alone.
   */
  lemma KeysForCases(albums: seq<Album>, photo: Photo, i: nat)
    requires |albums| > 0 && i < |albums|
    ensures photo.date < albums[0].end && PhotoInsideCluster(albums[i], photo) ==> albums[i].id in KeysFor(albums, photo)
    ensures photo.date >= albums[0].end ==> KeysFor(albums, photo) == [albums[0].id]
  {
    TargetsCollectsTargetAt(albums, |albums|, photo);
    TargetAtCases(albums, i, photo);
  }

  /**
   * The dictionary after filing the first `n` photos, photo `i` under the
   * keys `keys[i]`, in order.
   */
  function FileAll(photos: seq<Photo>, keys: seq<seq<string>>, n: nat): map<string, seq<Photo>>
    requires n <= |photos| && n <= |keys|
    decreases n
  {
    if n == 0 then map[] else AddAll(FileAll(photos, keys, n - 1), keys[n - 1], photos[n - 1])
  }

  /**
   * The photos filed under `key` from the first `n` photos, in input order:
   * each photo once per time its keys name `key`.
   */
  function Gathered(photos: seq<Photo>, keys: seq<seq<string>>, n: nat, key: string): seq<Photo>
    requires n <= |photos| && n <= |keys|
    decreases n
  {
    if n == 0 then [] else Gathered(photos, keys, n - 1, key) + Copies(photos[n - 1], Count(keys[n - 1], key))
  }

  /** Filing keeps, under every key, exactly the photos gathered for it; no key without photos. */
  lemma {:induction false} FileAllGathers(photos: seq<Photo>, keys: seq<seq<string>>, n: nat, key: string)
    requires n <= |photos| && n <= |keys|
    ensures Get(FileAll(photos, keys, n), key) == Gathered(photos, keys, n, key)
    ensures NoEmptyLists(FileAll(photos, keys, n))
    decreases n
  {
    if n > 0 {
      var before := FileAll(photos, keys, n - 1);
      FileAllGathers(photos, keys, n - 1, key);
      AddAllAppendsCopies(before, keys[n - 1], photos[n - 1], key);
      AddAllKeepsNoEmptyLists(before, keys[n - 1], photos[n - 1]);
    }
  }

  /** The keys `pastAlbumsToProcess` files each photo under. */
  function KeyLists(albums: seq<Album>, photos: seq<Photo>): (keys: seq<seq<string>>)
    requires |albums| > 0 || |photos| == 0
    ensures |keys| == |photos|
    ensures forall i :: 0 <= i < |photos| ==> keys[i] == KeysFor(albums, photos[i])
  {
    seq(|photos|, i requires 0 <= i < |photos| => KeysFor(albums, photos[i]))
  }

  /**
   * `keys` lists, for each photo, the keys `pastAlbumsToProcess` files it
   * under.  The equations are only brought into play where the keys of a
   * photo are asked for.
   */
  predicate KeysListed(albums: seq<Album>, photos: seq<Photo>, keys: seq<seq<string>>) {
    && |keys| == |photos|
    && (|albums| > 0 || |photos| == 0)
    && forall i {:trigger KeysFor(albums, photos[i])} :: 0 <= i < |photos| ==> keys[i] == KeysFor(albums, photos[i])
  }

  /** Filing photo `n` extends the dictionary of the first `n` photos to the first `n + 1`. */
  lemma FileAllStep(photos: seq<Photo>, keys: seq<seq<string>>, n: nat)
    requires n < |photos| && n < |keys|
    ensures FileAll(photos, keys, n + 1) == AddAll(FileAll(photos, keys, n), keys[n], photos[n])
  {
  }

  /** The dictionary `pastAlbumsToProcess(albums, photos)` returns; no albums give `{init: photos}`. */
  function Processed(albums: Option<seq<Album>>, photos: seq<Photo>): map<string, seq<Photo>>
    requires albums.Some? && |albums.value| == 0 ==> |photos| == 0
  {
    match albums
    case None => map["init" := photos]
    case Some(a) => FileAll(photos, KeyLists(a, photos), |photos|)
  }

  /**
   * `pastAlbumsToProcess` with albums: under every key, exactly the photos
   * whose keys name it, in input order, as often as they name it; a key is
   * present only when some photo was filed under it.
   */
  lemma ProcessedCollects(albums: seq<Album>, photos: seq<Photo>, key: string)
    requires |albums| > 0 || |photos| == 0
    ensures Get(Processed(Some(albums), photos), key) == Gathered(photos, KeyLists(albums, photos), |photos|, key)
    ensures key in Processed(Some(albums), photos) <==> |Gathered(photos, KeyLists(albums, photos), |photos|, key)| > 0
  {
    var m := Processed(Some(albums), photos);
    FileAllGathers(photos, KeyLists(albums, photos), |photos|, key);
    assert key in m ==> m[key] != [];
  }

  /** Without albums, every photo is filed under `init`, and nothing else. */
  lemma ProcessedWithoutAlbums(photos: seq<Photo>)
    ensures Processed(None, photos).Keys == {"init"}
    ensures Get(Processed(None, photos), "init") == photos
  {
  }

  /** Adding under one more key is adding under the others, then under it. */
  lemma AddAllSnoc(m: map<string, seq<Photo>>, keys: seq<string>, key: string, photo: Photo)
    ensures AddAll(m, keys + [key], photo) == Add(AddAll(m, keys, photo), key, photo)
  {
    assert (keys + [key])[..|keys|] == keys;
  }

  /** Adding under two lists of keys is adding under their concatenation. */
  lemma {:induction false} AddAllConcat(m: map<string, seq<Photo>>, first: seq<string>, second: seq<string>, photo: Photo)
    ensures AddAll(m, first + second, photo) == AddAll(AddAll(m, first, photo), second, photo)
    decreases |second|
  {
    if second == [] {
      assert first + second == first;
    } else {
      var init, last := second[..|second| - 1], second[|second| - 1];
      assert second == init + [last];
      assert first + second == (first + init) + [last];
      AddAllSnoc(m, first + init, last, photo);
      AddAllSnoc(AddAll(m, first, photo), init, last, photo);
      AddAllConcat(m, first, init, photo);
    }
  }

  /** A photo at or after the newest album's end is filed under that album only. */
  lemma RecentPhotoGoesToNewestAlbum(albums: seq<Album>, m: map<string, seq<Photo>>, photo: Photo)
    requires |albums| > 0 && photo.date >= albums[0].end
    ensures AddAll(m, KeysFor(albums, photo), photo) == Add(m, albums[0].id, photo)
  {
    assert KeysFor(albums, photo) == [] + [albums[0].id];
    AddAllSnoc(m, [], albums[0].id, photo);
  }

  /** One more album looked at adds its target, if any, to the keys. */
  lemma TargetsStep(albums: seq<Album>, i: nat, photo: Photo)
    requires i < |albums|
    ensures Targets(albums, i + 1, photo) == Targets(albums, i, photo) + TargetAt(albums, i, photo)
  {
  }

  /** The dictionary being built by `pastAlbumsToProcess`. */
  class ClusterMap {
    var toClusterize: map<string, seq<Photo>>

    constructor ()
      ensures toClusterize == map[]
    {
      toClusterize := map[];
    }

    /** `addPhotoToClusters(toClusterize, photo, albumStart, albumEnd)`. */
    method AddPhotoToClusters(photo: Photo, albumStart: Album, albumEnd: Option<Album>)
      modifies this
      ensures toClusterize == Add(old(toClusterize), KeyOf(albumStart, albumEnd), photo)
    {
      var key := KeyOf(albumStart, albumEnd);
      if key in toClusterize {
        toClusterize := toClusterize[key := toClusterize[key] + [photo]];
      } else {
        assert Get(toClusterize, key) + [photo] == [photo];
        toClusterize := toClusterize[key := [photo]];
      }
    }

    /** One pass of the loop of `photosToClusterize`: file the photo at album `i`, if at all. */
    method FileAtAlbum(albums: seq<Album>, i: nat, photo: Photo)
      requires i < |albums|
      modifies this
      ensures toClusterize == AddAll(old(toClusterize), TargetAt(albums, i, photo), photo)
    {
      if PhotoInsideCluster(albums[i], photo) {
        AddPhotoToClusters(photo, albums[i], None);
        AddAllSnoc(old(toClusterize), [], albums[i].id, photo);
        assert [] + [albums[i].id] == TargetAt(albums, i, photo);
      } else if PhotoBetweenClusters(Some(albums[i]), Next(albums, i), photo) {
        AddPhotoToClusters(photo, albums[i], Next(albums, i));
        AddAllSnoc(old(toClusterize), [], KeyOf(albums[i], Next(albums, i)), photo);
        assert [] + [KeyOf(albums[i], Next(albums, i))] == TargetAt(albums, i, photo);
      } else {
        assert TargetAt(albums, i, photo) == [];
      }
    }

    /** The `photos.forEach` of `pastAlbumsToProcess`, on an empty dictionary. */
    method FilePhotos(albums: seq<Album>, photos: seq<Photo>, ghost keys: seq<seq<string>>)
      requires KeysListed(albums, photos, keys)
      requires toClusterize == map[]
      modifies this
      ensures toClusterize == FileAll(photos, keys, |photos|)
    {
      var n := 0;
      while n < |photos|
        invariant 0 <= n <= |photos|
        invariant toClusterize == FileAll(photos, keys, n)
      {
        FileNth(albums, photos, keys, n);
        n := n + 1;
      }
    }

    /** One pass of the `photos.forEach`: photo `n` filed after the photos before it. */
    method FileNth(albums: seq<Album>, photos: seq<Photo>, ghost keys: seq<seq<string>>, n: nat)
      requires KeysListed(albums, photos, keys) && n < |photos|
      requires toClusterize == FileAll(photos, keys, n)
      modifies this
      ensures toClusterize == FileAll(photos, keys, n + 1)
    {
      assert keys[n] == KeysFor(albums, photos[n]);
      FilePhoto(albums, photos[n], keys[n]);
      FileAllStep(photos, keys, n);
    }

    /**
     * One pass of the loop of `pastAlbumsToProcess`: a photo older than the
     * newest album's end is matched against every album, any other goes to
     * the newest album.
     */
    method FilePhoto(albums: seq<Album>, photo: Photo, ghost keys: seq<string>)
      requires |albums| > 0 && keys == KeysFor(albums, photo)
      modifies this
      ensures toClusterize == AddAll(old(toClusterize), keys, photo)
    {
      if photo.date < albums[0].end {
        PhotosToClusterize(albums, photo);
      } else {
        AddPhotoToClusters(photo, albums[0], None);
        RecentPhotoGoesToNewestAlbum(albums, old(toClusterize), photo);
      }
    }

    /** `photosToClusterize(toClusterize, albums, photo)`: one look at each album, newest first. */
    method PhotosToClusterize(albums: seq<Album>, photo: Photo)
      modifies this
      ensures toClusterize == AddAll(old(toClusterize), Targets(albums, |albums|, photo), photo)
    {
      var i := 0;
      while i < |albums|
        invariant 0 <= i <= |albums|
        invariant toClusterize == AddAll(old(toClusterize), Targets(albums, i, photo), photo)
      {
        ghost var keys := Targets(albums, i, photo);
        FileAtAlbum(albums, i, photo);
        TargetsStep(albums, i, photo);
        AddAllConcat(old(toClusterize), keys, TargetAt(albums, i, photo), photo);
        i := i + 1;
      }
    }
  }

  /**
   * `pastAlbumsToProcess(albums, photos)`.  The source reads `albums[0]` for
   * every photo whenever `albums` is given, so a given empty list fails
   * unless there are no photos.
   */
  method PastAlbumsToProcess(albums: Option<seq<Album>>, photos: seq<Photo>) returns (toClusterize: map<string, seq<Photo>>)
    requires albums.Some? && |albums.value| == 0 ==> |photos| == 0
    ensures toClusterize == Processed(albums, photos)
  {
    var clusters := new ClusterMap();
    if albums.Some? {
      ghost var keys := KeyLists(albums.value, photos);
      assert KeysListed(albums.value, photos, keys);
      clusters.FilePhotos(albums.value, photos, keys);
    } else {
      clusters.toClusterize := clusters.toClusterize["init" := photos];
    }
    return clusters.toClusterize;
  }
}
