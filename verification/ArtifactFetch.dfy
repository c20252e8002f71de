/** The resumable download: chunks with their hashes in a journal, a partial file, and an
    output that appears in one atomic step after the whole content is verified. */
module ArtifactFetch {
  import opened Wrappers
  import opened FileCopy

  const CHUNK: nat := 4 * 1024 * 1024
  const MAX_CHUNKS: nat := 150_000

  datatype Phase = Downloading | Verified | Complete

  function PhaseRank(p: Phase): nat {
    match p case Downloading => 0 case Verified => 1 case Complete => 2
  }

  /** A chunk's size and hash are held as its bytes, the content hash as the content. */
  datatype Progress = Progress(binding: nat, sha: Bytes, size: nat, phase: Phase, mark: Option<Print>,
                               chunks: seq<Bytes>, version: nat)

  function Joined(chunks: seq<Bytes>): Bytes {
    if chunks == [] then [] else Joined(chunks[..|chunks| - 1]) + chunks[|chunks| - 1]
  }

  /** The journal's offset is the sum of its chunk sizes. */
  function Offset(j: Progress): nat {
    |Joined(j.chunks)|
  }

  /** _journal */
  predicate JournalFits(j: Progress) {
    && |j.chunks| <= MAX_CHUNKS && (forall c :: c in j.chunks ==> 1 <= |c| <= CHUNK)
    && Offset(j) <= j.size && (j.phase != Downloading ==> Offset(j) == j.size)
    && (j.mark.None? ==> Offset(j) == 0) && (j.mark.Some? ==> j.mark.value.size == Offset(j))
  }

  datatype Window = Cut | Rejected(error: Error) | Fetched(downloaded: nat, complete: bool)

  datatype Step = Lost | Fail(error: Error) | Go(downloaded: nat, life: Option<nat>)

  type Remote = (nat, nat) -> Bytes

  /** The remote serves every range of the promised content. */
  ghost predicate Serves(remote: Remote, content: Bytes, size: nat) {
    |content| == size
    && forall offset: nat, count: nat :: offset + count <= size ==>
         remote(offset, count) == content[offset..offset + count]
  }

  lemma Served(remote: Remote, content: Bytes, size: nat, offset: nat, count: nat)
    requires Serves(remote, content, size) && offset + count <= size
    ensures |content| == size && remote(offset, count) == content[offset..offset + count]
  {
  }

  /** An honest answer to the next range continues what is there. */
  lemma NextPart(remote: Remote, content: Bytes, size: nat, have: Bytes, count: nat)
    requires |have| + count <= size
    ensures Serves(remote, content, size) && have <= content ==>
              |remote(|have|, count)| == count && have + remote(|have|, count) <= content
  {
    if Serves(remote, content, size) {
      Served(remote, content, size, |have|, count);
    }
  }

  lemma PartOf(content: Bytes, have: Bytes, more: Bytes)
    requires have <= more <= content
    ensures more[|have|..] == content[|have|..|more|] && more[..|have|] == have
  {
  }

  lemma JoinedMore(chunks: seq<Bytes>, c: Bytes)
    ensures Joined(chunks + [c]) == Joined(chunks) + c
  {
    assert (chunks + [c])[..|chunks|] == chunks;
  }

  lemma ExaminedFits(j: Progress, f: File)
    requires JournalFits(j) && j.phase == Downloading
    ensures |f.bytes| == Offset(j) ==> JournalFits(j.(mark := Some(PrintOf(f))))
    ensures |j.chunks| <= MAX_CHUNKS
  {
    hide Joined;
  }

  lemma TailFits(j: Progress, c: Bytes, f: File)
    requires JournalFits(j) && j.phase == Downloading && |j.chunks| < MAX_CHUNKS && 1 <= |c| <= CHUNK
    requires Joined(j.chunks + [c]) == f.bytes && |f.bytes| <= j.size
    ensures JournalFits(j.(chunks := j.chunks + [c], mark := Some(PrintOf(f))))
  {
    hide Joined;
  }

  lemma FitsAs(j: Progress, phase: Phase, f: File)
    requires JournalFits(j) && Offset(j) == j.size == |f.bytes|
    ensures JournalFits(j.(phase := phase, mark := Some(PrintOf(f))))
  {
  }

  class Fetcher {
    const binding: nat
    const sha: Bytes
    const size: nat
    var partial: Option<File>
    var output: Option<File>
    var journal: Option<Progress>
    var clock: nat

    constructor (binding: nat, sha: Bytes, size: nat)
      ensures Valid() && Sound() && this.binding == binding && this.sha == sha && this.size == size
      ensures partial.None? && output.None? && journal.None?
    {
      this.binding, this.sha, this.size := binding, sha, size;
      partial, output, journal, clock := None, None, None, 0;
    }

    /** What the journal's fingerprint is evidence of, whoever touches the files. */
    ghost predicate Evidence(j: Progress)
      reads this
    {
      j.mark.Some? ==>
        && j.mark.value.stamp < clock
        && (partial.Some? && PrintOf(partial.value) == j.mark.value ==> Known(j, partial.value.bytes))
        && (output.Some? && PrintOf(output.value) == j.mark.value && j.phase != Downloading ==>
              Known(j, output.value.bytes))
    }

    ghost predicate Known(j: Progress, bytes: Bytes) {
      if j.phase == Downloading then bytes == Joined(j.chunks) else bytes == j.sha
    }

    ghost predicate Valid()
      reads this
    {
      && (partial.Some? ==> partial.value.stamp < clock) && (output.Some? ==> output.value.stamp < clock)
      && (journal.Some? ==> Evidence(journal.value))
    }

    /** True while nobody else touches the files. */
    ghost predicate Sound()
      reads this
    {
      if journal.None? then partial.None? && output.None?
      else Ours(journal.value) && JournalFits(journal.value) && InPhase(journal.value)
    }

    ghost predicate Ours(j: Progress) {
      j.binding == binding && j.sha == sha && j.size == size
    }

    ghost predicate InPhase(j: Progress)
      reads this
    {
      match j.phase
      case Downloading =>
        && output.None? && (partial.None? ==> Offset(j) == 0)
        && (partial.Some? ==> Joined(j.chunks) <= partial.value.bytes
                              && |partial.value.bytes| <= j.size && |partial.value.bytes| <= Offset(j) + CHUNK)
      case Verified =>
        && |sha| == size
        && (if partial.Some? then output.None? && partial.value.bytes == sha
            else output.Some? && output.value.bytes == sha)
      case Complete => partial.None? && output.Some? && output.value.bytes == sha && |sha| == size
    }

    /** Someone else rewrites the partial file or the output. */
    method Disturb(newPartial: Option<Bytes>, newOutput: Option<Bytes>)
      requires Valid()
      modifies this
      ensures Valid()
    {
      partial := if newPartial.Some? then Some(File(newPartial.value, clock)) else None;
      output := if newOutput.Some? then Some(File(newOutput.value, clock)) else None;
      clock := clock + 1;
    }

    /** What has been downloaded so far is the beginning of the promised content. */
    ghost predicate Faithful()
      reads this
    {
      journal.Some? && journal.value.phase == Downloading ==>
        Joined(journal.value.chunks) <= sha && (partial.Some? ==> partial.value.bytes <= sha)
    }

    /** The bytes of the partial file that no receipt covers yet. */
    ghost function Owed(): nat
      reads this
    {
      if journal.Some? && journal.value.phase == Downloading && partial.Some?
         && |partial.value.bytes| > Offset(journal.value) then |partial.value.bytes| - Offset(journal.value) else 0
    }

    ghost predicate Full()
      reads this
    {
      journal.Some? && |journal.value.chunks| >= MAX_CHUNKS
    }

    ghost predicate NewOutputVerified(before: Option<File>)
      reads this
    {
      before.None? && output.Some? ==> output.value.bytes == sha && journal.Some? && journal.value.phase != Downloading
    }

    /** _finish: verify everything, publish atomically, then say so. */
    method Finish(j: Progress, life: Option<nat>) returns (r: Window)
      requires Valid() && journal == Some(j) && Ours(j) && JournalFits(j) && Offset(j) == size
      requires j.phase == Downloading ==> partial.Some?
      modifies this
      ensures Valid() && (old(Sound()) ==> Sound())
      ensures journal.Some? && Ours(journal.value)
      ensures PhaseRank(journal.value.phase) < PhaseRank(j.phase) <==> j.phase == Complete && r.Cut? && life != Some(0)
      ensures journal.value.phase == Downloading ==> j.phase == Downloading
      ensures NewOutputVerified(old(output)) && (old(output).Some? ==> output == old(output))
      ensures r.Fetched? ==>
                r == Fetched(0, true) && journal.value.phase == Complete && output.Some? && output.value.bytes == sha
      ensures old(Sound()) && r.Rejected? ==> r.error == ArtifactContentMismatch && j.phase == Downloading
      ensures old(Sound()) ==>
                (PhaseRank(journal.value.phase) < PhaseRank(j.phase) <==> j.phase == Complete && life == Some(1))
      ensures life.None? ==> !r.Cut?
      ensures old(Sound()) && |sha| == size && Joined(j.chunks) <= sha && life.None? ==> r == Fetched(0, true)
    {
      hide JournalFits;
      var chosen := Choose(j);
      if chosen.Failure? {
        return Rejected(chosen.error);
      }
      if life == Some(0) {
        return Cut;
      }
      var steps := Spend(life);
      FitsAs(j, Verified, chosen.value);
      journal := Some(j.(phase := Verified, mark := Some(PrintOf(chosen.value))));
      if partial.Some? {
        if steps == Some(0) {
          return Cut;
        }
        steps := Spend(steps);
        output, partial, clock := Some(File(chosen.value.bytes, clock)), None, clock + 1;
      }
      if steps == Some(0) {
        return Cut;
      }
      FitsAs(j, Complete, output.value);
      journal := Some(j.(phase := Complete, mark := Some(PrintOf(output.value))));
      r := Fetched(0, true);
    }

    /** The file to finish from, checked against the promised content. */
    method Choose(j: Progress) returns (r: Wrappers.Result<File>)
      requires Valid() && journal == Some(j) && Ours(j) && (j.phase == Downloading ==> partial.Some?)
      ensures r.Success? ==>
                && r.value.bytes == sha && |sha| == size
                && (if output.Some? then output == Some(r.value) && partial.None? else partial == Some(r.value))
      ensures Sound() && r.Failure? && Offset(j) == size ==>
                r.error == ArtifactContentMismatch && j.phase == Downloading
      ensures Sound() && Offset(j) == size == |sha| && Joined(j.chunks) <= sha ==> r.Success?
    {
      if output.Some? && partial.Some? {
        return Failure(ArtifactOutputConflict);
      }
      if output.None? && partial.None? {
        return Failure(ArtifactPartialMissing);
      }
      var chosen := if output.Some? then output.value else partial.value;
      if |chosen.bytes| != size {
        return Failure(ArtifactOutputConflict);
      }
      if j.phase == Downloading || j.mark != Some(PrintOf(chosen)) {
        if chosen.bytes != sha {
          return Failure(ArtifactContentMismatch);
        }
      }
      return Success(chosen);
    }

    /** Opening the partial file: saved chunks are checked when it changed, and a crash tail is
        adopted only after the same range has been fetched again. */
    method Reopen(j: Progress, maximum: nat, remote: Remote, life: Option<nat>) returns (r: Step)
      requires Valid() && journal == Some(j) && Ours(j) && JournalFits(j) && j.phase == Downloading && output.None?
      modifies this
      ensures Valid() && (old(Sound()) ==> Sound()) && output.None?
      ensures journal.Some? && Ours(journal.value) && JournalFits(journal.value) && journal.value.phase == Downloading
      ensures journal.value.version == j.version
      ensures r.Go? ==>
                && Ready() && r.downloaded <= maximum && Offset(journal.value) == Offset(j) + r.downloaded
                && (life.None? ==> r.life.None?)
      ensures !r.Go? ==> journal == old(journal)
      ensures r.Fail? ==>
                r.error in {ArtifactPartialMissing, ArtifactPartialConflict, ArtifactJournalCapacity,
                            ArtifactBudgetTooSmall}
      ensures old(Sound()) && r.Fail? ==> r.error != ArtifactPartialMissing
      ensures life.None? ==> !r.Lost?
      ensures old(Sound() && Faithful()) && Serves(remote, sha, size) && life.None? ==>
        && (r.Fail? <==> old(Owed()) > 0 && (old(Full()) || old(Owed()) > maximum))
        && (r.Fail? ==> r.error == if old(Full()) then ArtifactJournalCapacity else ArtifactBudgetTooSmall)
        && Faithful()
    {
      hide Serves;
      if partial.None? && Offset(j) > 0 {
        return Fail(ArtifactPartialMissing);
      }
      var steps := life;
      if partial.None? {
        if steps == Some(0) {
          return Lost;
        }
        steps := Spend(steps);
        partial, clock := Some(File([], clock)), clock + 1;
      }
      var f := partial.value;
      if !(Offset(j) <= |f.bytes| <= Min(size, Offset(j) + CHUNK)) {
        return Fail(ArtifactPartialConflict);
      }
      var k := Examine(j, f, maximum, remote);
      if k.Failure? {
        return Fail(k.error);
      }
      if steps == Some(0) {
        return Lost;
      }
      journal := Some(k.value.(mark := Some(PrintOf(f))));
      r := Go(Offset(k.value) - Offset(j), Spend(steps));
    }

    /** What of an existing partial file may be kept. */
    method Examine(j: Progress, f: File, maximum: nat, remote: Remote) returns (r: Wrappers.Result<Progress>)
      requires JournalFits(j) && j.phase == Downloading && Offset(j) <= |f.bytes| <= Min(j.size, Offset(j) + CHUNK)
      requires j.mark == Some(PrintOf(f)) ==> f.bytes == Joined(j.chunks)
      ensures r.Success? ==>
                && r.value.(chunks := j.chunks) == j && Joined(r.value.chunks) == f.bytes
                && JournalFits(r.value.(mark := Some(PrintOf(f))))
      ensures r.Success? ==> Offset(r.value) - Offset(j) <= maximum && j.chunks <= r.value.chunks
      ensures r.Failure? ==> r.error in {ArtifactPartialConflict, ArtifactJournalCapacity, ArtifactBudgetTooSmall}
      ensures Serves(remote, j.sha, j.size) && Joined(j.chunks) <= f.bytes <= j.sha ==>
        var owed := |f.bytes| - Offset(j);
        && (r.Failure? <==> owed > 0 && (|j.chunks| >= MAX_CHUNKS || owed > maximum))
        && (r.Failure? ==>
              r.error == if |j.chunks| >= MAX_CHUNKS then ArtifactJournalCapacity else ArtifactBudgetTooSmall)
    {
      hide Joined, JournalFits, Serves;
      var base := Offset(j);
      ExaminedFits(j, f);
      if j.mark == Some(PrintOf(f)) {
        assert f.bytes[..base] == Joined(j.chunks);
        return Success(j);
      }
      assert f.bytes == f.bytes[..base] + f.bytes[base..];
      if f.bytes[..base] != Joined(j.chunks) {
        return Failure(ArtifactPartialConflict);
      }
      var tail := |f.bytes| - base;
      if tail == 0 {
        return Success(j);
      }
      if |j.chunks| >= MAX_CHUNKS {
        return Failure(ArtifactJournalCapacity);
      }
      if tail > maximum {
        return Failure(ArtifactBudgetTooSmall);
      }
      var expected := remote(base, tail);
      if Serves(remote, j.sha, j.size) && Joined(j.chunks) <= f.bytes <= j.sha {
        Served(remote, j.sha, j.size, base, tail);
        PartOf(j.sha, Joined(j.chunks), f.bytes);
      }
      if |expected| != tail || f.bytes[base..] != expected {
        return Failure(ArtifactPartialConflict);
      }
      JoinedMore(j.chunks, expected);
      TailFits(j, expected, f);
      return Success(j.(chunks := j.chunks + [expected]));
    }

    /** The partial file is exactly what the journal has. */
    ghost predicate Ready()
      reads this
    {
      journal.Some? && partial.Some? && partial.value.bytes == Joined(journal.value.chunks)
      && journal.value.mark == Some(PrintOf(partial.value))
    }

    /** The download loop. */
    method Pump(start: nat, maximum: nat, remote: Remote, life: Option<nat>, tail: Bytes) returns (r: Step)
      requires Valid() && Ready() && Ours(journal.value) && JournalFits(journal.value)
      requires journal.value.phase == Downloading && output.None? && start <= maximum
      modifies this`partial, this`journal, this`clock
      ensures Valid() && Sound()
      ensures journal.Some? && journal.value.phase == Downloading && journal.value.version == old(journal.value.version)
      ensures Offset(old(journal.value)) <= Offset(journal.value)
      ensures r.Go? ==>
                && Ready() && r.downloaded <= maximum && (Offset(journal.value) == size || r.downloaded == maximum)
                && Offset(journal.value) == Offset(old(journal.value)) + r.downloaded - start
                && (life.None? ==> r.life.None?)
      ensures r.Fail? ==> r.error in {ArtifactJournalCapacity, ArtifactShortRead}
      ensures life.None? ==> !r.Lost?
      ensures old(Faithful()) && Serves(remote, sha, size) && life.None? ==>
                Faithful() && (r.Fail? ==> r.error == ArtifactJournalCapacity && Full())
    {
      hide Evidence, JournalFits, Serves;
      var downloaded, steps := start, life;
      ghost var honest := Faithful() && Serves(remote, sha, size);
      StartsReady();
      while Offset(journal.value) < size && downloaded < maximum
        invariant Valid() && Sound() && Ready() && journal.value.phase == Downloading && downloaded <= maximum
        invariant journal.value.version == old(journal.value.version) && (life.None? ==> steps.None?)
        invariant Offset(journal.value) == Offset(old(journal.value)) + downloaded - start
        invariant honest ==> partial.value.bytes <= sha
        decreases size - Offset(journal.value)
      {
        var j := journal.value;
        StillFits();
        if |j.chunks| >= MAX_CHUNKS {
          return Fail(ArtifactJournalCapacity);
        }
        var count := Min(CHUNK, Min(size - Offset(j), maximum - downloaded));
        var data := remote(Offset(j), count);
        NextPart(remote, sha, size, Joined(j.chunks), count);
        if |data| != count {
          return Fail(ArtifactShortRead);
        }
        if steps == Some(0) {
          Append(tail[..Min(|tail|, count)]);
          return Lost;
        }
        Append(data);
        if Spend(steps) == Some(0) {
          return Lost;
        }
        Receipt(data);
        steps, downloaded := Spend(Spend(steps)), downloaded + count;
      }
      r := Go(downloaded, steps);
    }

    /** The progress receipt of one chunk already written. */
    method Receipt(data: Bytes)
      requires Valid() && Sound() && journal.Some? && journal.value.phase == Downloading && partial.Some?
      requires partial.value.bytes == Joined(journal.value.chunks) + data && 1 <= |data| <= CHUNK
      requires Offset(journal.value) + |data| <= size && |journal.value.chunks| < MAX_CHUNKS
      modifies this`journal
      ensures Valid() && Sound() && Ready() && journal.value.phase == Downloading
      ensures Offset(journal.value) == Offset(old(journal.value)) + |data|
              && journal.value.version == old(journal.value.version)
      ensures Joined(journal.value.chunks) == partial.value.bytes && partial == old(partial)
    {
      var j := journal.value;
      JoinedMore(j.chunks, data);
      journal := Some(j.(chunks := j.chunks + [data], mark := Some(PrintOf(partial.value))));
    }

    method Append(data: Bytes)
      requires Valid() && Sound() && Ready() && journal.value.phase == Downloading
      requires |data| <= CHUNK && Offset(journal.value) + |data| <= size
      modifies this`partial, this`clock
      ensures Valid() && Sound() && partial.Some? && partial.value.bytes == old(Joined(journal.value.chunks)) + data
    {
      partial, clock := Some(File(partial.value.bytes + data, clock)), clock + 1;
    }

    /** fetch_artifact: one window.  versions are what the remote metadata says before and after. */
    method Fetch(maximum: nat, remote: Remote, version: nat, versionAfter: nat, life: Option<nat>, tail: Bytes)
      returns (r: Window)
      requires Valid() && maximum > 0
      modifies this
      ensures Valid()
      // undisturbed, whatever crash came before or comes now
      ensures old(Sound()) ==> Sound()
      // an output only ever appears with the promised content, and is then never touched
      ensures NewOutputVerified(old(output)) && (old(output).Some? ==> output == old(output))
      // a job never goes back to downloading; a verdict is withdrawn only by a call that was cut short
      ensures old(journal).Some? ==>
                && journal.Some? && (journal.value.phase == Downloading ==> old(journal).value.phase == Downloading)
                && (PhaseRank(journal.value.phase) < PhaseRank(old(journal).value.phase) <==>
                      old(journal).value.phase == Complete && r.Cut? && life != Some(0))
      // undisturbed, phases move forward but for a finished job repeated and killed after its first durable write
      ensures old(Sound()) && old(journal).Some? ==>
                (PhaseRank(journal.value.phase) < PhaseRank(old(journal).value.phase) <==>
                   old(journal).value.phase == Complete && life == Some(1))
      ensures r.Fetched? ==>
                && journal.Some? && r.downloaded <= maximum && (r.complete <==> journal.value.phase == Complete)
                && (r.complete ==> output.Some? && output.value.bytes == sha)
                && (!r.complete ==> r.downloaded == maximum)
      // its own leftovers are never mistaken for someone else's output
      ensures old(Sound()) && r.Rejected? ==>
                r.error !in {ArtifactOutputConflict, ArtifactOutputWithoutJournal, ArtifactPartialMissing,
                             ArtifactBindingMismatch, ArtifactInvalidJournal}
      ensures life.None? ==> !r.Cut?
      // from an honest remote an undisturbed window is refused for two causes alone
      ensures old(Sound() && Faithful()) && Serves(remote, sha, size) && life.None? && versionAfter == version
              && (old(journal).Some? ==> old(journal).value.version == version) ==>
        && (r.Fetched? || r == Rejected(ArtifactBudgetTooSmall) || r == Rejected(ArtifactJournalCapacity))
        && (r == Rejected(ArtifactBudgetTooSmall) <==> old(Owed()) > maximum && !old(Full()))
        && (r == Rejected(ArtifactJournalCapacity) ==> Full())
        && Faithful()
    {
      if journal.Some? && !JournalFits(journal.value) {
        return Rejected(ArtifactInvalidJournal);
      }
      if journal.Some?
         && !(journal.value.binding == binding && journal.value.sha == sha && journal.value.size == size) {
        return Rejected(ArtifactBindingMismatch);
      }
      if journal.None? && (output.Some? || partial.Some?) {
        return Rejected(ArtifactOutputWithoutJournal);
      }
      if journal.Some? && journal.value.phase != Downloading {
        r := Finish(journal.value, life);
        return r;
      }
      if output.Some? {
        return Rejected(ArtifactOutputConflict);
      }
      if journal.Some? && journal.value.version != version {
        return Rejected(ArtifactVersionChanged);
      }
      var steps := life;
      if journal.None? {
        if steps == Some(0) {
          return Cut;
        }
        steps := Spend(steps);
        journal := Some(Progress(binding, sha, size, Downloading, None, [], version));
      }
      r := Download(maximum, remote, versionAfter, steps, tail);
    }

    /** The window of a job still downloading. */
    method Download(maximum: nat, remote: Remote, versionAfter: nat, life: Option<nat>, tail: Bytes) returns (r: Window)
      requires Valid() && maximum > 0 && journal.Some? && Ours(journal.value) && JournalFits(journal.value)
      requires journal.value.phase == Downloading && output.None?
      modifies this
      ensures Valid() && (old(Sound()) ==> Sound())
      ensures journal.Some? && Ours(journal.value) && NewOutputVerified(None)
      ensures r.Fetched? ==>
                && r.downloaded <= maximum && (r.complete <==> journal.value.phase == Complete)
                && (r.complete ==> output.Some? && output.value.bytes == sha)
                && (!r.complete ==> r.downloaded == maximum)
      ensures old(Sound()) && r.Rejected? ==>
                r.error !in {ArtifactOutputConflict, ArtifactOutputWithoutJournal, ArtifactPartialMissing,
                             ArtifactBindingMismatch, ArtifactInvalidJournal}
      ensures life.None? ==> !r.Cut?
      // from an honest remote an undisturbed window is refused for two causes alone
      ensures old(Sound() && Faithful()) && Serves(remote, sha, size) && life.None?
              && versionAfter == old(journal).value.version ==>
        && (r.Fetched? || r == Rejected(ArtifactBudgetTooSmall) || r == Rejected(ArtifactJournalCapacity))
        && (r == Rejected(ArtifactBudgetTooSmall) <==> old(Owed()) > maximum && !old(Full()))
        && (r == Rejected(ArtifactJournalCapacity) ==> Full())
        && Faithful()
    {
      hide JournalFits, Evidence, InPhase;
      var opening := Reopen(journal.value, maximum, remote, life);
      match opening {
        case Lost => return Cut;
        case Fail(e) => return Rejected(e);
        case Go(adopted, left) =>
          var pumped := Pump(adopted, maximum, remote, left, tail);
          match pumped {
            case Lost => return Cut;
            case Fail(e) => return Rejected(e);
            case Go(downloaded, rest) =>
              if versionAfter != journal.value.version {
                return Rejected(ArtifactVersionChanged);
              }
              if Offset(journal.value) == size {
                StillFits();
                r := Finish(journal.value, rest);
                return if r.Fetched? then Fetched(downloaded, true) else r;
              }
              return Fetched(downloaded, false);
          }
      }
    }

    lemma StartsReady()
      requires Ready() && Ours(journal.value) && JournalFits(journal.value)
      requires journal.value.phase == Downloading && output.None?
      ensures Sound()
    {
    }

    lemma StillFits()
      requires Sound() && journal.Some?
      ensures Ours(journal.value) && JournalFits(journal.value)
    {
    }
  }

  /** Repeating a finished empty download, cut short after its first durable write, leaves the
      journal at verified again; the output is untouched. */
  method FinishedJobFallsBack() returns (before: Phase, after: Phase, kept: bool)
    ensures before == Complete && after == Verified && kept
  {
    var f := new Fetcher(0, [], 0);
    f.output, f.clock := Some(File([], 0)), 1;
    f.journal := Some(Progress(0, [], 0, Complete, Some(PrintOf(f.output.value)), [], 0));
    before := f.journal.value.phase;
    var output := f.output;
    var r := f.Fetch(1, (offset, count) => [], 0, 0, Some(1), []);
    after, kept := f.journal.value.phase, f.output == output;
  }
}
