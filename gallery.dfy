/**
 * The gallery sync of src/index.ts as a transformation of the bucket: which stored
 * objects are orphans, what the downloads add, the manifest written at the end, and
 * which object the gallery page shows for each entry. `Env.FetchUserGallery`
 * performs these steps one store operation at a time; the functions here give the
 * state it must reach.
 */
module Gallery {
  import opened Options
  import opened Strings
  import opened Instagram

  type Bytes = seq<bv8>

  /** The trimmed entry written to the manifest: no media or thumbnail URL. */
  datatype GalleryEntry = GalleryEntry(
    id: string,
    caption: string,
    mediaType: MediaType,
    timestamp: string,
    permalink: string)

  /** A bucket object: downloaded bytes, or the manifest (its JSON encoding is not modelled). */
  datatype StoredObject = Blob(bytes: Bytes) | ManifestJson(entries: seq<GalleryEntry>)

  type Bucket = map<string, StoredObject>

  const ManifestKey: string := "gallery.json"

  function MediaKey(id: string): string
  {
    "media-" + id
  }

  function ThumbKey(id: string): string
  {
    "thumb-" + id
  }

  /** The manifest element for one fetched entry. */
  function ToGalleryEntry(m: MediaEntry): GalleryEntry
  {
    GalleryEntry(m.id, m.caption, m.mediaType, m.timestamp, m.permalink)
  }

  /** The manifest: one trimmed entry per fetched entry, same length, same order. */
  function Manifest(feed: seq<MediaEntry>): (entries: seq<GalleryEntry>)
    ensures |entries| == |feed|
    ensures forall i :: 0 <= i < |feed| ==>
              && entries[i].id == feed[i].id
              && entries[i].caption == feed[i].caption
              && entries[i].mediaType == feed[i].mediaType
              && entries[i].timestamp == feed[i].timestamp
              && entries[i].permalink == feed[i].permalink
  {
    seq(|feed|, i requires 0 <= i < |feed| => ToGalleryEntry(feed[i]))
  }

  /** Two feeds that differ only in their URLs give the same manifest. */
  lemma ManifestIgnoresUrls(feed: seq<MediaEntry>, other: seq<MediaEntry>)
    requires |feed| == |other|
    requires forall i :: 0 <= i < |feed| ==>
               other[i] == feed[i].(mediaUrl := other[i].mediaUrl, thumbnailUrl := other[i].thumbnailUrl)
    ensures Manifest(feed) == Manifest(other)
  {
  }

  /** `key.split('-')[1]`: the media id a key refers to, None (`undefined`) when the key has no `-`. */
  function MediaIdOf(key: string): (r: Option<string>)
    ensures r.Some? <==> '-' in key
    ensures r.Some? ==> '-' !in r.value
  {
    SplitSingle(key, '-');
    var parts := Split(key, '-');
    if |parts| >= 2 then Some(parts[1]) else None
  }

  /** Some fetched entry has this id (`gallery.data.find(media => media.id === mediaId)`). */
  predicate Listed(id: string, feed: seq<MediaEntry>)
  {
    exists i :: 0 <= i < |feed| && feed[i].id == id
  }

  /** The filter of the sync: every key but the manifest whose media id is absent or not listed. */
  predicate IsOrphan(key: string, feed: seq<MediaEntry>)
  {
    key != ManifestKey && (MediaIdOf(key).None? || !Listed(MediaIdOf(key).value, feed))
  }

  function Orphans(keys: set<string>, feed: seq<MediaEntry>): (orphans: set<string>)
    ensures orphans <= keys && ManifestKey !in orphans
  {
    set key | key in keys && IsOrphan(key, feed)
  }

  /** A key without `-` other than the manifest refers to no media and is always an orphan. */
  lemma UndashedKeyIsOrphan(key: string, feed: seq<MediaEntry>)
    requires key != ManifestKey && '-' !in key
    ensures IsOrphan(key, feed)
  {
  }

  /** The prefixed key of an id without `-` refers back to that id. */
  lemma MediaIdOfPrefixed(prefix: string, id: string)
    requires '-' !in prefix && '-' !in id
    ensures MediaIdOf(prefix + "-" + id) == Some(id)
  {
    SplitAfterPiece(prefix, '-', id);
    SplitSingle(id, '-');
  }

  /** An id holding `-` is not recognised in its own keys: `media-<id>` refers to the id's first segment. */
  lemma DashedIdNotRecognised(id: string)
    requires '-' in id
    ensures MediaIdOf(MediaKey(id)) != Some(id)
  {
    SplitAfterPiece("media", '-', id);
    assert MediaKey(id) == "media" + "-" + id;
  }

  /** The objects the downloads want for a feed: `media-<id>` and, for a video, `thumb-<id>`, when the URL is set. */
  predicate WantsMedia(m: MediaEntry)
  {
    m.mediaUrl != ""
  }

  predicate WantsThumb(m: MediaEntry)
  {
    m.mediaType == Video && m.thumbnailUrl != ""
  }

  function WantedKeys(feed: seq<MediaEntry>): set<string>
  {
    (set m | m in feed && WantsMedia(m) :: MediaKey(m.id))
      + (set m | m in feed && WantsThumb(m) :: ThumbKey(m.id))
  }

  /** Keys the downloads add are never orphans, provided ids hold no `-` (Instagram's ids are digits). */
  lemma WantedKeyNotOrphan(feed: seq<MediaEntry>, key: string)
    requires forall i :: 0 <= i < |feed| ==> '-' !in feed[i].id
    requires key in WantedKeys(feed)
    ensures !IsOrphan(key, feed)
  {
    var m :| m in feed && ((WantsMedia(m) && key == MediaKey(m.id)) || (WantsThumb(m) && key == ThumbKey(m.id)));
    var i :| 0 <= i < |feed| && feed[i] == m;
    if key == MediaKey(m.id) {
      MediaIdOfPrefixed("media", m.id);
      assert key == "media" + "-" + m.id;
    } else {
      MediaIdOfPrefixed("thumb", m.id);
      assert key == "thumb" + "-" + m.id;
    }
  }

  /** `downloadImage(name, url)`: nothing for an empty URL or an existing key, else the fetched bytes under `name`. */
  function Download(b: Bucket, name: string, url: string, fetch: string -> Bytes): (r: Bucket)
    ensures url == "" || name in b ==> r == b
    ensures url != "" && name !in b ==>
              && r.Keys == b.Keys + {name}
              && r[name] == Blob(fetch(url))
              && forall k :: k in b ==> r[k] == b[k]
  {
    if url == "" || name in b then b else b[name := Blob(fetch(url))]
  }

  /** The downloads for one entry: its media, then its thumbnail when it is a video. */
  function DownloadEntry(b: Bucket, m: MediaEntry, fetch: string -> Bytes): Bucket
  {
    var withMedia := Download(b, MediaKey(m.id), m.mediaUrl, fetch);
    if m.mediaType == Video then Download(withMedia, ThumbKey(m.id), m.thumbnailUrl, fetch) else withMedia
  }

  /** The downloads for a whole feed, in feed order. */
  function DownloadAll(b: Bucket, feed: seq<MediaEntry>, fetch: string -> Bytes): Bucket
    decreases |feed|
  {
    if feed == [] then b
    else DownloadEntry(DownloadAll(b, feed[..|feed| - 1], fetch), feed[|feed| - 1], fetch)
  }

  /** A key the downloads added holds the bytes fetched from the URL of an entry that wants it. */
  ghost predicate FetchedFor(key: string, obj: StoredObject, feed: seq<MediaEntry>, fetch: string -> Bytes)
  {
    exists m :: m in feed &&
      ((WantsMedia(m) && key == MediaKey(m.id) && obj == Blob(fetch(m.mediaUrl)))
       || (WantsThumb(m) && key == ThumbKey(m.id) && obj == Blob(fetch(m.thumbnailUrl))))
  }

  lemma WantedKeysSnoc(init: seq<MediaEntry>, m: MediaEntry)
    ensures WantedKeys(init + [m]) == WantedKeys(init) + WantedKeys([m])
  {
    forall x ensures x in init + [m] <==> x in init || x == m {
    }
  }

  lemma WantedKeysSingle(m: MediaEntry)
    ensures WantedKeys([m]) == (if WantsMedia(m) then {MediaKey(m.id)} else {})
                               + (if WantsThumb(m) then {ThumbKey(m.id)} else {})
  {
    forall x ensures x in [m] <==> x == m {
    }
  }

  lemma FetchedForWider(key: string, obj: StoredObject, feed: seq<MediaEntry>, wider: seq<MediaEntry>, fetch: string -> Bytes)
    requires forall x :: x in feed ==> x in wider
    requires FetchedFor(key, obj, feed, fetch)
    ensures FetchedFor(key, obj, wider, fetch)
  {
  }

  /** The downloads for one entry: the keys it wants are added with fetched bytes, nothing else changes. */
  lemma DownloadEntryEffect(b: Bucket, m: MediaEntry, fetch: string -> Bytes)
    ensures DownloadEntry(b, m, fetch).Keys == b.Keys + WantedKeys([m])
    ensures forall k :: k in b ==> DownloadEntry(b, m, fetch)[k] == b[k]
    ensures forall k :: k in DownloadEntry(b, m, fetch) && k !in b ==>
              FetchedFor(k, DownloadEntry(b, m, fetch)[k], [m], fetch)
  {
    var after := DownloadEntry(b, m, fetch);
    var withMedia := Download(b, MediaKey(m.id), m.mediaUrl, fetch);
    WantedKeysSingle(m);
    assert m in [m];
    forall k | k in after && k !in b ensures FetchedFor(k, after[k], [m], fetch) {
      if k in withMedia {
        assert k == MediaKey(m.id) && WantsMedia(m);
      } else {
        assert k == ThumbKey(m.id) && WantsThumb(m);
      }
    }
  }

  /**
   * The downloads keep every existing object as it was, add exactly the wanted keys
   * that were missing, and fill each with bytes fetched for it.
   */
  lemma {:induction false} DownloadAllEffect(b: Bucket, feed: seq<MediaEntry>, fetch: string -> Bytes)
    ensures DownloadAll(b, feed, fetch).Keys == b.Keys + WantedKeys(feed)
    ensures forall k :: k in b ==> DownloadAll(b, feed, fetch)[k] == b[k]
    ensures forall k :: k in DownloadAll(b, feed, fetch) && k !in b ==>
              FetchedFor(k, DownloadAll(b, feed, fetch)[k], feed, fetch)
    decreases |feed|
  {
    if feed != [] {
      var init, m := feed[..|feed| - 1], feed[|feed| - 1];
      assert feed == init + [m];
      DownloadAllEffect(b, init, fetch);
      var before := DownloadAll(b, init, fetch);
      var after := DownloadAll(b, feed, fetch);
      DownloadEntryEffect(before, m, fetch);
      WantedKeysSnoc(init, m);
      forall k | k in after && k !in b ensures FetchedFor(k, after[k], feed, fetch) {
        if k in before {
          FetchedForWider(k, after[k], init, feed, fetch);
        } else {
          FetchedForWider(k, after[k], [m], feed, fetch);
        }
      }
    }
  }

  /** When every wanted key is already stored, the downloads change nothing. */
  lemma {:induction false} DownloadAllPresent(b: Bucket, feed: seq<MediaEntry>, fetch: string -> Bytes)
    requires WantedKeys(feed) <= b.Keys
    ensures DownloadAll(b, feed, fetch) == b
    decreases |feed|
  {
    if feed != [] {
      var init, m := feed[..|feed| - 1], feed[|feed| - 1];
      assert WantedKeys(init) <= WantedKeys(feed) by {
        forall x | x in init ensures x in feed {
        }
      }
      DownloadAllPresent(b, init, fetch);
      assert m in feed;
    }
  }

  /** The bucket after a sync with the fetched feed: orphans deleted, downloads done, manifest written. */
  function Synced(b: Bucket, feed: seq<MediaEntry>, fetch: string -> Bytes): (r: Bucket)
    ensures ManifestKey in r && r[ManifestKey] == ManifestJson(Manifest(feed))
  {
    DownloadAll(b - Orphans(b.Keys, feed), feed, fetch)[ManifestKey := ManifestJson(Manifest(feed))]
  }

  /**
   * What a sync does to each key: a stored key that is not an orphan keeps its
   * object (the manifest aside), an orphan disappears unless the downloads want it
   * back, and every key present afterwards is the manifest, a non-orphan, or a key
   * the downloads want.
   */
  lemma SyncedKeys(b: Bucket, feed: seq<MediaEntry>, fetch: string -> Bytes)
    ensures Synced(b, feed, fetch).Keys == (b.Keys - Orphans(b.Keys, feed)) + WantedKeys(feed) + {ManifestKey}
    ensures forall k :: k in b && k != ManifestKey && !IsOrphan(k, feed) ==> Synced(b, feed, fetch)[k] == b[k]
    ensures forall k :: k in b && IsOrphan(k, feed) && k !in WantedKeys(feed) ==> k !in Synced(b, feed, fetch)
    ensures forall k :: k in Synced(b, feed, fetch) ==> k == ManifestKey || !IsOrphan(k, feed) || k in WantedKeys(feed)
  {
    DownloadAllEffect(b - Orphans(b.Keys, feed), feed, fetch);
  }

  /** Every entry with a media URL has its `media-<id>`, every video with a thumbnail URL its `thumb-<id>`. */
  lemma SyncStoresMedia(b: Bucket, feed: seq<MediaEntry>, fetch: string -> Bytes)
    ensures forall m :: m in feed && WantsMedia(m) ==> MediaKey(m.id) in Synced(b, feed, fetch)
    ensures forall m :: m in feed && WantsThumb(m) ==> ThumbKey(m.id) in Synced(b, feed, fetch)
  {
    SyncedKeys(b, feed, fetch);
  }

  /**
   * With ids free of `-`, the sync deletes a stored key exactly when it is an orphan,
   * and afterwards every key but the manifest refers to a listed id.
   */
  lemma SyncInvariant(b: Bucket, feed: seq<MediaEntry>, fetch: string -> Bytes)
    requires forall i :: 0 <= i < |feed| ==> '-' !in feed[i].id
    ensures forall k :: k in b ==> (k in Synced(b, feed, fetch) <==> !IsOrphan(k, feed))
    ensures forall k :: k in Synced(b, feed, fetch) && k != ManifestKey ==>
              MediaIdOf(k).Some? && Listed(MediaIdOf(k).value, feed)
  {
    SyncedKeys(b, feed, fetch);
    forall k | k in WantedKeys(feed) ensures !IsOrphan(k, feed) {
      WantedKeyNotOrphan(feed, k);
    }
  }

  /**
   * The downloads decide each key on its own: a key that starts out the same in two
   * buckets (absent from both, or present in both with one object) ends up the same.
   */
  lemma {:induction false} DownloadAllAgrees(b1: Bucket, b2: Bucket, feed: seq<MediaEntry>, fetch: string -> Bytes, k: string)
    requires k in b1 <==> k in b2
    requires k in b1 ==> b1[k] == b2[k]
    ensures k in DownloadAll(b1, feed, fetch) <==> k in DownloadAll(b2, feed, fetch)
    ensures k in DownloadAll(b1, feed, fetch) ==> DownloadAll(b1, feed, fetch)[k] == DownloadAll(b2, feed, fetch)[k]
    decreases |feed|
  {
    if feed != [] {
      var init, m := feed[..|feed| - 1], feed[|feed| - 1];
      DownloadAllAgrees(b1, b2, init, fetch, k);
      DownloadEntryAgrees(DownloadAll(b1, init, fetch), DownloadAll(b2, init, fetch), m, fetch, k);
    }
  }

  /** One entry's downloads decide each key on its own. */
  lemma DownloadEntryAgrees(b1: Bucket, b2: Bucket, m: MediaEntry, fetch: string -> Bytes, k: string)
    requires k in b1 <==> k in b2
    requires k in b1 ==> b1[k] == b2[k]
    ensures k in DownloadEntry(b1, m, fetch) <==> k in DownloadEntry(b2, m, fetch)
    ensures k in DownloadEntry(b1, m, fetch) ==> DownloadEntry(b1, m, fetch)[k] == DownloadEntry(b2, m, fetch)[k]
  {
    var w1 := Download(b1, MediaKey(m.id), m.mediaUrl, fetch);
    var w2 := Download(b2, MediaKey(m.id), m.mediaUrl, fetch);
    assert k in w1 <==> k in w2;
  }

  /** A second sync with the same feed and media bytes leaves each key as the first left it. */
  lemma SyncIdempotentAt(b: Bucket, feed: seq<MediaEntry>, fetch: string -> Bytes, k: string)
    ensures k in Synced(Synced(b, feed, fetch), feed, fetch) <==> k in Synced(b, feed, fetch)
    ensures k in Synced(b, feed, fetch) ==> Synced(Synced(b, feed, fetch), feed, fetch)[k] == Synced(b, feed, fetch)[k]
  {
    var once := Synced(b, feed, fetch);
    var pruned := b - Orphans(b.Keys, feed);
    var repruned := once - Orphans(once.Keys, feed);
    if k != ManifestKey {
      if k in repruned {
        DownloadAllEffect(repruned, feed, fetch);
      } else {
        // `k` is an orphan of the feed or absent after the first sync; either way the first run started without it
        DownloadAllEffect(pruned, feed, fetch);
        assert k !in pruned;
        DownloadAllAgrees(pruned, repruned, feed, fetch, k);
      }
    }
  }

  /** Running the sync again with the same feed and the same media bytes changes nothing. */
  lemma SyncIdempotent(b: Bucket, feed: seq<MediaEntry>, fetch: string -> Bytes)
    ensures Synced(Synced(b, feed, fetch), feed, fetch) == Synced(b, feed, fetch)
  {
    var once := Synced(b, feed, fetch);
    var twice := Synced(once, feed, fetch);
    forall k ensures (k in twice <==> k in once) && (k in once ==> twice[k] == once[k]) {
      SyncIdempotentAt(b, feed, fetch, k);
    }
  }

  /**
   * With ids free of `-`, a bucket after a sync holds no orphans and every wanted
   * object, so the next sync with the same feed deletes nothing and fetches nothing:
   * it leaves the bucket as it is whatever the media URLs now return.
   */
  lemma SecondSyncFetchesNothing(b: Bucket, feed: seq<MediaEntry>, fetch: string -> Bytes, later: string -> Bytes)
    requires forall i :: 0 <= i < |feed| ==> '-' !in feed[i].id
    ensures Orphans(Synced(b, feed, fetch).Keys, feed) == {}
    ensures Synced(Synced(b, feed, fetch), feed, later) == Synced(b, feed, fetch)
  {
    var once := Synced(b, feed, fetch);
    SyncInvariant(b, feed, fetch);
    SyncedKeys(b, feed, fetch);
    assert Orphans(once.Keys, feed) == {};
    assert once - {} == once;
    DownloadAllPresent(once, feed, later);
  }

  /** `renderGallery`'s choice: a video shows its thumbnail, anything else its media. */
  function ShownKey(e: GalleryEntry): (key: string)
    ensures key == ThumbKey(e.id) <==> e.mediaType == Video
    ensures key == MediaKey(e.id) <==> e.mediaType != Video
  {
    // the two prefixes differ in their first letter, so the two keys never coincide
    assert ThumbKey(e.id)[0] != MediaKey(e.id)[0];
    if e.mediaType == Video then ThumbKey(e.id) else MediaKey(e.id)
  }
}
