/** Which current media a torrent physically backs, found without looking at the
    whole library. */
module StorageViews {
  import opened FileTopology

  /** Media key k owns some name of the file at torrent path tp. */
  ghost predicate OwnsFileOf(index: Index, k: MediaKey, tp: Path) {
    exists p :: (p == tp || (Identified(index.files, tp) && p in At(index.identityPaths, index.files[tp].identity)))
                && MediaRef(k, p) in At(index.mediaByPath, p)
  }

  ghost predicate IsCandidate(index: Index, hash: string, k: MediaKey) {
    exists tp :: tp in At(index.torrentPaths, hash) && OwnsFileOf(index, k, tp)
  }

  /** The keys owning one of these paths, each once. */
  method CollectOwners(index: Index, paths: seq<Path>, seen: set<MediaKey>, found: seq<MediaKey>, current: set<MediaKey>)
    returns (seenAfter: set<MediaKey>, after: seq<MediaKey>)
    requires forall k :: k in found <==> k in seen && k in current
    ensures forall k :: k in seenAfter <==> k in seen || exists p, r :: p in paths && r in At(index.mediaByPath, p) && r.owner == k
    ensures forall k :: k in after <==> k in seenAfter && k in current
  {
    seenAfter, after := seen, found;
    for n := 0 to |paths|
      invariant forall k :: k in seenAfter <==> k in seen || exists p, r :: p in paths[..n] && r in At(index.mediaByPath, p) && r.owner == k
      invariant forall k :: k in after <==> k in seenAfter && k in current
    {
      MemberStep(paths, n);
      var refs := At(index.mediaByPath, paths[n]);
      ghost var before := seenAfter;
      for m := 0 to |refs|
        invariant forall k :: k in seenAfter <==> k in before || exists r :: r in refs[..m] && r.owner == k
        invariant forall k :: k in after <==> k in seenAfter && k in current
      {
        MemberStep(refs, m);
        var k := refs[m].owner;
        if k !in seenAfter {
          seenAfter := seenAfter + {k};
          if k in current {
            after := after + [k];
          }
        }
      }
      assert refs[..|refs|] == refs;
    }
    assert paths[..|paths|] == paths;
  }

  /** The current media that own a name of one of the torrent's files. */
  method CandidateMedia(index: Index, hash: string, current: set<MediaKey>) returns (candidates: seq<MediaKey>)
    requires forall p, r :: r in At(index.mediaByPath, p) ==> r.path == p
    ensures forall k :: k in candidates <==> k in current && IsCandidate(index, hash, k)
  {
    candidates := [];
    var seen: set<MediaKey> := {};
    var paths := At(index.torrentPaths, hash);
    for n := 0 to |paths|
      invariant forall k :: k in candidates <==> k in seen && k in current
      invariant forall k :: k in seen <==> exists tp :: tp in paths[..n] && OwnsFileOf(index, k, tp)
    {
      MemberStep(paths, n);
      var tp := paths[n];
      var others := SamePhysicalPaths(index, tp);
      var physical := [tp] + others;
      assert forall p :: p in physical <==> p == tp || (Identified(index.files, tp) && p in At(index.identityPaths, index.files[tp].identity));
      ghost var before := seen;
      seen, candidates := CollectOwners(index, physical, seen, candidates, current);
      forall k
        ensures k in seen <==> k in before || OwnsFileOf(index, k, tp)
      {
        if k in seen && k !in before {
          var p, r :| p in physical && r in At(index.mediaByPath, p) && r.owner == k;
          assert r == MediaRef(k, p);
        }
      }
    }
    assert paths[..|paths|] == paths;
  }

  /** A media item that shares a file with the torrent is a candidate. */
  lemma MatchIsCandidate(index: Index, files: seq<File>, mediaRefs: seq<MediaRef>, hash: string, k: MediaKey)
    requires FilesIndexed(index, files) && MediaIndexed(index, mediaRefs)
    requires Shares(index.files, At(index.mediaPaths, k), At(index.torrentPaths, hash))
    ensures IsCandidate(index, hash, k)
  {
    var p, q :| p in At(index.mediaPaths, k) && q in At(index.torrentPaths, hash) && SameFile(index.files, p, q);
    assert p in At(index.identityPaths, index.files[q].identity);
    assert MediaRef(k, p) in At(index.mediaByPath, p);
    assert OwnsFileOf(index, k, q);
  }

  /** Asking only the candidates finds exactly the current media that the torrent
      physically backs: what asking the whole library would find. */
  method BackedMedia(index: Index, ghost files: seq<File>, ghost mediaRefs: seq<MediaRef>, hash: string, current: set<MediaKey>)
    returns (backed: seq<MediaKey>)
    requires FilesIndexed(index, files) && MediaIndexed(index, mediaRefs)
    ensures forall k :: k in backed <==> k in current && Shares(index.files, At(index.mediaPaths, k), At(index.torrentPaths, hash))
  {
    var candidates := CandidateMedia(index, hash, current);
    backed := [];
    for n := 0 to |candidates|
      invariant forall k :: k in backed <==> k in candidates[..n] && Shares(index.files, At(index.mediaPaths, k), At(index.torrentPaths, hash))
    {
      MemberStep(candidates, n);
      var matched, _ := TorrentMediaPhysicalMatch(index, hash, candidates[n]);
      if matched {
        backed := backed + [candidates[n]];
      }
    }
    assert candidates[..|candidates|] == candidates;
    forall k | k in current && Shares(index.files, At(index.mediaPaths, k), At(index.torrentPaths, hash))
      ensures k in candidates
    {
      MatchIsCandidate(index, files, mediaRefs, hash, k);
    }
  }
}
