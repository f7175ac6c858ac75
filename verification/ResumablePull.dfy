/**
 The destination side of a peer transfer: verified prefixes are resumed, chunks from an untrusted
 peer are appended, and a file counts as pulled only under the manifest's digest.
 */
module ResumablePull {
  import opened Prelude

  const CHECKPOINT_EVERY: nat := 4 * 1024 * 1024

  predicate CheckpointDue(offset: nat, size: nat) { offset % CHECKPOINT_EVERY == 0 || offset == size }

  datatype Prefix = Prefix(offset: nat, sha: Digest)

  type Prefixes = map<string, Prefix>

  type Files = map<string, Bytes>

  /** A manifest entry; `rel` is absent when the listed path is unsafe. */
  datatype Entry = Entry(rel: Option<string>, size: nat, sha: Digest, link: string)

  datatype Io = Fine | WriteFails(kept: nat) | SyncFails | SaveFails

  /** What the peer answers to one chunk request, and how the local disk then behaves. */
  datatype Reply = Failure | Chunk(offset: nat, data: Bytes, io: Io)

  /** The recorded prefix is on disk and still hashes to what was recorded. */
  predicate Resumable(p: Prefix, content: Bytes, size: nat) {
    0 < p.offset <= size && p.offset <= |content| && Sha256(content[..p.offset]) == p.sha
  }

  /** `openPrefix`: what is kept of a staged file. */
  function Kept(prefixes: Prefixes, rel: string, content: Bytes, size: nat): (kept: Bytes)
    ensures kept <= content && |kept| <= size
  {
    if rel in prefixes && Resumable(prefixes[rel], content, size) then content[..prefixes[rel].offset] else []
  }

  /** Of a file with a record of some bytes exactly these are kept if they are there, and otherwise nothing. */
  lemma ResumesRecordedBytes(prefixes: Prefixes, rel: string, content: Bytes, size: nat, bytes: Bytes)
    requires Recorded(prefixes, rel) == Some(Prefix(|bytes|, Sha256(bytes))) && 0 < |bytes| <= size
    ensures Kept(prefixes, rel, content, size) == if bytes <= content then bytes else []
  {
    if bytes <= content { assert content[..|bytes|] == bytes; }
  }

  function Recorded(prefixes: Prefixes, rel: string): (p: Option<Prefix>) {
    if rel in prefixes then Some(prefixes[rel]) else None
  }

  function Put(prefixes: Prefixes, rel: string, p: Option<Prefix>): (r: Prefixes) {
    if p.Some? then prefixes[rel := p.value] else prefixes
  }

  function Content(files: Files, rel: string): (c: Bytes) { if rel in files then files[rel] else [] }

  /**
   From checkpoint `start` over content `first` to checkpoint `now` over `content`: a new checkpoint can
   be resumed, and one that could be resumed before still can, no earlier than before.
   */
  ghost predicate Forward(start: Option<Prefix>, first: Bytes, now: Option<Prefix>, content: Bytes, size: nat) {
    && (now != start ==> now.Some? && Resumable(now.value, content, size))
    && (start.Some? && Resumable(start.value, first, size) ==>
          now.Some? && now.value.offset >= start.value.offset && Resumable(now.value, content, size))
  }

  lemma ForwardOpens(prefixes: Prefixes, rel: string, first: Bytes, size: nat)
    ensures Forward(Recorded(prefixes, rel), first, Recorded(prefixes, rel), Kept(prefixes, rel, first, size), size)
  {
    if rel in prefixes && Resumable(prefixes[rel], first, size) {
      var k := prefixes[rel].offset;
      assert first[..k][..k] == first[..k];
    }
  }

  lemma ForwardGrows(start: Option<Prefix>, first: Bytes, now: Option<Prefix>, content: Bytes, more: Bytes, size: nat)
    requires Forward(start, first, now, content, size)
    ensures Forward(start, first, now, content + more, size)
  {
    if now.Some? && Resumable(now.value, content, size) {
      assert (content + more)[..now.value.offset] == content[..now.value.offset];
    }
  }

  lemma ForwardMarks(start: Option<Prefix>, first: Bytes, now: Option<Prefix>, content: Bytes, size: nat)
    requires Forward(start, first, now, content, size) && 0 < |content| <= size
    ensures Forward(start, first, Some(Prefix(|content|, Sha256(content))), content, size)
  {
    assert content[..|content|] == content;
  }

  lemma DueAtEnd(size: nat)
    ensures CheckpointDue(size, size)
  {
  }

  lemma FullWhenKept(prefixes: Prefixes, rel: string, first: Bytes, size: nat)
    ensures var kept := Kept(prefixes, rel, first, size);
      0 < size == |kept| ==> Recorded(prefixes, rel) == Some(Prefix(size, Sha256(kept)))
  {
  }

  function Total(entries: seq<Entry>): (n: nat) {
    if entries == [] then 0
    else
      var last := entries[|entries| - 1];
      Total(entries[..|entries| - 1]) + if last.link == "" then last.size else 0
  }

  /** One of the first `n` entries stages the path of entry `i` again. */
  ghost predicate Superseded(entries: seq<Entry>, i: nat, n: nat)
    requires i < n <= |entries|
  {
    exists j :: i < j < n && entries[j].link == "" && entries[j].rel == entries[i].rel
  }

  predicate Pulled(e: Entry, files: Files) {
    e.rel.Some? && e.rel.value in files && |files[e.rel.value]| == e.size && Sha256(files[e.rel.value]) == e.sha
  }

  /** The first `n` entries are staged as the manifest lists them. */
  ghost predicate AllPulled(entries: seq<Entry>, n: nat, files: Files)
    requires n <= |entries|
  {
    forall k :: 0 <= k < n && entries[k].link == "" && !Superseded(entries, k, n) ==> Pulled(entries[k], files)
  }

  lemma OneMorePulled(entries: seq<Entry>, n: nat, before: Files, files: Files)
    requires n < |entries| && AllPulled(entries, n, before)
    requires entries[n].link == "" ==>
      Pulled(entries[n], files) && files == before[entries[n].rel.value := files[entries[n].rel.value]]
    requires entries[n].link != "" ==> files == before
    ensures AllPulled(entries, n + 1, files)
  {
    forall k | 0 <= k < n + 1 && entries[k].link == "" && !Superseded(entries, k, n + 1)
      ensures Pulled(entries[k], files)
    {
      if k < n {
        assert !Superseded(entries, k, n);
        assert Pulled(entries[k], before);
        assert entries[n].link == "" ==> entries[k].rel != entries[n].rel;
      }
    }
  }

  class Transfer {
    /** Staged files, the checkpoint on disk, and the checkpoint in memory. */
    var files: Files
    var saved: Prefixes
    var prefixes: Prefixes

    /** Whatever an earlier attempt, a crash or anyone else left on disk. */
    constructor (staged: Files, checkpoint: Prefixes)
      ensures files == staged && saved == checkpoint && prefixes == checkpoint
    {
      files, saved, prefixes := staged, checkpoint, checkpoint;
    }

    /** Opens the file at its kept prefix and returns the bytes fed to the running hash. */
    method OpenPrefix(rel: string, size: nat) returns (hashed: Bytes, offset: nat)
      modifies `files
      ensures hashed == Kept(prefixes, rel, if rel in old(files) then old(files)[rel] else [], size)
      ensures offset == |hashed| && files == old(files)[rel := hashed]
    {
      var content := if rel in files then files[rel] else [];
      var prefix := if rel in prefixes then prefixes[rel] else Prefix(0, Sha256([]));
      if prefix.offset > size { prefix := Prefix(0, Sha256([])); }
      hashed := [];
      if prefix.offset > 0 {
        hashed := content[..if prefix.offset <= |content| then prefix.offset else |content|];
        if |hashed| != prefix.offset || Sha256(hashed) != prefix.sha {
          prefix, hashed := Prefix(0, Sha256([])), [];
        }
      }
      offset := prefix.offset;
      files := files[rel := content[..offset]];
    }

    /**
     Appends an accepted chunk, and records a checkpoint when one is due. Whatever fails, the checkpoint on
     disk describes bytes that are still staged.
     */
    method Append(rel: string, reply: Reply, size: nat, ghost start: Option<Prefix>, ghost first: Bytes)
      returns (ok: bool)
      requires rel in files && reply.Chunk? && 0 < |reply.data| <= size - |files[rel]|
      requires saved == prefixes && Forward(start, first, Recorded(saved, rel), files[rel], size)
      modifies this
      ensures rel in files && files == old(files)[rel := files[rel]]
      ensures saved == Put(old(saved), rel, Recorded(saved, rel))
      ensures Forward(start, first, Recorded(saved, rel), files[rel], size)
      ensures ok ==> saved == prefixes && files[rel] == old(files)[rel] + reply.data
      ensures ok && |files[rel]| == size ==> Recorded(saved, rel) == Some(Prefix(size, Sha256(files[rel])))
    {
      ghost var mark := Recorded(saved, rel);
      DueAtEnd(size);
      hide Forward, CheckpointDue;
      if reply.io.WriteFails? {
        var part := reply.data[..if reply.io.kept <= |reply.data| then reply.io.kept else |reply.data|];
        ForwardGrows(start, first, mark, files[rel], part, size);
        files := files[rel := files[rel] + part];
        return false;
      }
      ForwardGrows(start, first, mark, files[rel], reply.data, size);
      files := files[rel := files[rel] + reply.data];
      if CheckpointDue(|files[rel]|, size) {
        if reply.io.SyncFails? { return false; }
        ForwardMarks(start, first, mark, files[rel], size);
        prefixes := prefixes[rel := Prefix(|files[rel]|, Sha256(files[rel]))];
        if reply.io.SaveFails? { return false; }
        saved := prefixes;
      }
      return true;
    }

    /**
     Pulls one file. On success its bytes have the manifest's size and digest and the checkpoint on disk says
     so; whatever the peer sent and however it ended, other files and their checkpoints are untouched, and
     the file's checkpoint on disk has moved forward only over bytes that are still staged.
     */
    method PullFile(rel: string, size: nat, sha: Digest, peer: seq<Reply>) returns (ok: bool, used: nat, got: nat)
      requires saved == prefixes
      modifies this
      ensures used <= |peer| && rel in files && files == old(files)[rel := files[rel]]
      ensures saved == Put(old(saved), rel, Recorded(saved, rel))
      ensures Forward(Recorded(old(saved), rel), Content(old(files), rel), Recorded(saved, rel), files[rel], size)
      ensures ok ==> saved == prefixes && |files[rel]| == size && Sha256(files[rel]) == sha && got == size
      ensures ok && size > 0 ==> Recorded(saved, rel) == Some(Prefix(size, sha))
    {
      ghost var start, first := Recorded(saved, rel), Content(files, rel);
      var hashed, offset := OpenPrefix(rel, size);
      ForwardOpens(saved, rel, first, size);
      FullWhenKept(saved, rel, first, size);
      hide Kept, Forward;
      used, got := 0, offset;
      while offset < size
        invariant used <= |peer| && got == offset == |hashed| <= size
        invariant rel in files && files[rel] == hashed && files == old(files)[rel := hashed]
        invariant saved == prefixes && saved == Put(old(saved), rel, Recorded(saved, rel))
        invariant Forward(start, first, Recorded(saved, rel), hashed, size)
        invariant 0 < size == offset ==> Recorded(saved, rel) == Some(Prefix(size, Sha256(hashed)))
        decreases size - offset
      {
        if used == |peer| || peer[used].Failure? { return false, used, got; }
        var reply := peer[used];
        used := used + 1;
        if reply.offset != offset || |reply.data| == 0 || |reply.data| > size - offset { return false, used, got; }
        var stored := Append(rel, reply, size, start, first);
        if !stored { return false, used, got; }
        hashed := hashed + reply.data;
        offset, got := offset + |reply.data|, got + |reply.data|;
      }
      ok := Sha256(hashed) == sha;
    }

    /**
     Pulls every regular file of the manifest; the count is the total size. However it ends, what the
     checkpoint on disk newly says of any listed file is true of the staged bytes, and nothing that could
     be resumed before is lost.
     */
    method PullAll(entries: seq<Entry>, peer: seq<Reply>) returns (ok: bool, done: nat)
      requires saved == prefixes
      modifies this
      ensures ok ==> done == Total(entries) && AllPulled(entries, |entries|, files)
      ensures DistinctPaths(entries) ==> AllForward(entries, old(saved), old(files), saved, files)
    {
      hide AllPulled, AllForward, Forward, Put, DistinctPaths;
      done := 0;
      var from := 0;
      NonePulled(entries, files);
      NoneMoved(entries, saved, files);
      for i := 0 to |entries|
        invariant 0 <= from <= |peer| && done == Total(entries[..i]) && AllPulled(entries, i, files)
        invariant saved == prefixes
        invariant DistinctPaths(entries) ==>
          && AllForward(entries, old(saved), old(files), saved, files)
          && Untouched(entries, i, old(saved), old(files), saved, files)
      {
        var e := entries[i];
        ghost var was, before := saved, files;
        assert entries[..i + 1][..i] == entries[..i];
        if e.rel.None? { return false, done; }
        if e.link == "" {
          var pulled, used, got := PullFile(e.rel.value, e.size, e.sha, peer[from..]);
          from, done := from + used, done + got;
          if DistinctPaths(entries) { OneMoreForward(entries, i, old(saved), old(files), was, before, saved, files); }
          if !pulled { return false, done; }
        } else if DistinctPaths(entries) {
          StillUntouched(entries, i, old(saved), old(files), saved, files);
        }
        OneMorePulled(entries, i, before, files);
      }
      assert entries[..|entries|] == entries;
      ok := true;
    }
  }

  lemma NonePulled(entries: seq<Entry>, files: Files)
    ensures AllPulled(entries, 0, files)
  {
  }

  // ------------------------------------------------------------ the checkpoint over a whole attempt

  /** No path is listed twice among the regular files. */
  ghost predicate DistinctPaths(entries: seq<Entry>) {
    forall i, j :: 0 <= i < j < |entries| && entries[i].link == "" && entries[j].link == "" && entries[i].rel.Some? ==>
      entries[i].rel != entries[j].rel
  }

  ghost predicate EntryForward(e: Entry, s0: Prefixes, f0: Files, s: Prefixes, f: Files) {
    e.link == "" && e.rel.Some? ==>
      var rel := e.rel.value;
      Forward(Recorded(s0, rel), Content(f0, rel), Recorded(s, rel), Content(f, rel), e.size)
  }

  ghost predicate AllForward(entries: seq<Entry>, s0: Prefixes, f0: Files, s: Prefixes, f: Files) {
    forall k :: 0 <= k < |entries| ==> EntryForward(entries[k], s0, f0, s, f)
  }

  /** Nothing has happened yet to the files from entry `i` on. */
  ghost predicate Untouched(entries: seq<Entry>, i: nat, s0: Prefixes, f0: Files, s: Prefixes, f: Files) {
    forall k :: i <= k < |entries| && entries[k].link == "" && entries[k].rel.Some? ==>
      && Recorded(s, entries[k].rel.value) == Recorded(s0, entries[k].rel.value)
      && Content(f, entries[k].rel.value) == Content(f0, entries[k].rel.value)
  }

  lemma NoneMoved(entries: seq<Entry>, s: Prefixes, f: Files)
    ensures AllForward(entries, s, f, s, f) && Untouched(entries, 0, s, f, s, f)
  {
  }

  lemma StillUntouched(entries: seq<Entry>, i: nat, s0: Prefixes, f0: Files, s: Prefixes, f: Files)
    requires Untouched(entries, i, s0, f0, s, f)
    ensures Untouched(entries, i + 1, s0, f0, s, f)
  {
  }

  lemma OneMoreForward(entries: seq<Entry>, i: nat, s0: Prefixes, f0: Files,
                       s: Prefixes, f: Files, s': Prefixes, f': Files)
    requires i < |entries| && entries[i].link == "" && entries[i].rel.Some? && DistinctPaths(entries)
    requires AllForward(entries, s0, f0, s, f) && Untouched(entries, i, s0, f0, s, f)
    requires var rel := entries[i].rel.value;
      && rel in f' && f' == f[rel := f'[rel]] && s' == Put(s, rel, Recorded(s', rel))
      && Forward(Recorded(s, rel), Content(f, rel), Recorded(s', rel), f'[rel], entries[i].size)
    ensures AllForward(entries, s0, f0, s', f') && Untouched(entries, i + 1, s0, f0, s', f')
  {
    hide Forward;
    var rel := entries[i].rel.value;
    forall k | 0 <= k < |entries| ensures EntryForward(entries[k], s0, f0, s', f') {
      assert EntryForward(entries[k], s0, f0, s, f);
      if k != i && entries[k].link == "" && entries[k].rel.Some? { assert entries[k].rel.value != rel; }
    }
  }

  /**
   What an attempt has newly recorded, or could itself resume from, the next one resumes from, whatever a crash
   left of the file: exactly the recorded bytes if they are all there, and otherwise nothing.
   */
  lemma NextAttemptResumes(rel: string, start: Option<Prefix>, first: Bytes, s: Prefixes, content: Bytes,
                           after: Bytes, size: nat)
    requires Forward(start, first, Recorded(s, rel), content, size) && rel in s
    requires Recorded(s, rel) != start || Resumable(s[rel], first, size)
    ensures 0 < s[rel].offset <= |content|
    ensures Kept(s, rel, after, size) == if content[..s[rel].offset] <= after then content[..s[rel].offset] else []
    ensures start.Some? && Resumable(start.value, first, size) ==> s[rel].offset >= start.value.offset
  {
    ResumesRecordedBytes(s, rel, after, size, content[..s[rel].offset]);
  }
}
