/** The resumable copy: write, make durable, journal, with a crash possible between any two
    durable writes. */
module FileCopy {
  import opened Wrappers

  type Bytes = seq<bv8>

  const CHUNK_BYTES: nat := 4 * 1024 * 1024
  const MAXIMUM_BYTES: nat := 256 * 1024 * 1024

  /** A file and the stamp its fingerprint carries; every write stamps it anew. */
  datatype File = File(bytes: Bytes, stamp: nat)

  datatype Print = Print(stamp: nat, size: nat)

  function PrintOf(f: File): Print {
    Print(f.stamp, |f.bytes|)
  }

  /** A legacy journal has neither paths nor fingerprints.  A hash is held as the bytes it is of. */
  datatype Journal = Journal(legacy: bool, paths: nat, sourceSha: Bytes, sourceBytes: nat, offset: nat, complete: bool,
                             sourcePrint: Print, destPrint: Print)

  /** _read_journal */
  predicate WellFormed(j: Journal) {
    && j.offset <= j.sourceBytes && (j.complete ==> j.offset == j.sourceBytes)
    && (!j.legacy ==> j.sourcePrint.size == j.sourceBytes && j.destPrint.size == j.offset)
  }

  datatype Outcome = Crashed | Refused(error: Error) | Copied(count: nat, complete: bool)

  function Min(a: nat, b: nat): nat {
    if a <= b then a else b
  }

  /** _verify_prefix, chunk by chunk. */
  method VerifyPrefix(source: Bytes, dest: Bytes, size: nat) returns (same: bool)
    ensures same <==> size <= |source| && size <= |dest| && source[..size] == dest[..size]
  {
    var done := 0;
    while done < size
      invariant done <= size && done <= |source| && done <= |dest| && source[..done] == dest[..done]
    {
      var length := Min(CHUNK_BYTES, size - done);
      var expected := source[done..Min(done + length, |source|)];
      var actual := dest[done..Min(done + length, |dest|)];
      if |expected| != length || actual != expected {
        DiffersLater(source, dest, done, length, size);
        return false;
      }
      assert source[..done + length] == source[..done] + expected;
      assert dest[..done + length] == dest[..done] + actual;
      done := done + length;
    }
    same := true;
  }

  lemma DiffersLater(source: Bytes, dest: Bytes, done: nat, length: nat, size: nat)
    requires done + length <= size && done <= |source| && done <= |dest|
    requires |source| < done + length || dest[done..Min(done + length, |dest|)] != source[done..done + length]
    ensures !(size <= |source| && size <= |dest| && source[..size] == dest[..size])
  {
    if done + length <= |source| && done + length <= |dest| {
      var i :| 0 <= i < length && source[done..done + length][i] != dest[done..done + length][i];
      assert source[done + i] != dest[done + i];
      if size <= |source| && size <= |dest| {
        assert source[..size][done + i] != dest[..size][done + i];
      }
    }
  }

  class Copier {
    const paths: nat
    var source: File
    var dest: Option<File>
    var journal: Option<Journal>
    var clock: nat

    constructor (paths: nat, bytes: Bytes)
      ensures Valid() && Sound() && source.bytes == bytes && dest.None? && journal.None?
    {
      this.paths := paths;
      source, dest, journal, clock := File(bytes, 0), None, None, 1;
    }

    /** What a fingerprint is evidence of: an unchanged stamp means unchanged bytes. */
    ghost predicate Evidence(j: Journal)
      reads this
    {
      && j.sourcePrint.stamp < clock && j.destPrint.stamp < clock
      && (PrintOf(source) == j.sourcePrint ==> source.bytes == j.sourceSha)
      && (dest.Some? && PrintOf(dest.value) == j.destPrint ==>
            j.offset <= |j.sourceSha| && dest.value.bytes == j.sourceSha[..j.offset])
    }

    /** True whatever anyone does to the files between calls. */
    ghost predicate Valid()
      reads this
    {
      && source.stamp < clock && (dest.Some? ==> dest.value.stamp < clock)
      && (journal.Some? && !journal.value.legacy ==> Evidence(journal.value))
    }

    /** True while nobody else touches the files. */
    ghost predicate Sound()
      reads this
    {
      journal.Some? ==>
        && WellFormed(journal.value) && !journal.value.legacy && journal.value.paths == paths
        && journal.value.sourceSha == source.bytes && journal.value.sourceBytes == |source.bytes|
        && dest.Some? && journal.value.offset <= |dest.value.bytes|
        && dest.value.bytes[..journal.value.offset] == source.bytes[..journal.value.offset]
        && (journal.value.complete ==> dest.value.bytes == source.bytes)
    }

    /** Someone else rewrites the source or the destination, or an old release left its journal. */
    method Disturb(newSource: Option<Bytes>, newDest: Option<Option<Bytes>>, legacy: Option<Journal>)
      requires Valid() && (legacy.Some? ==> legacy.value.legacy)
      modifies this
      ensures Valid()
    {
      if newSource.Some? {
        source := File(newSource.value, clock);
      }
      if newDest.Some? {
        dest := if newDest.value.Some? then Some(File(newDest.value.value, clock)) else None;
      }
      if legacy.Some? {
        journal := legacy;
      }
      clock := clock + 1;
    }

    ghost function DestBytes(): Bytes
      reads this
    {
      if dest.Some? then dest.value.bytes else []
    }

    /** The refusals before the destination is opened. */
    function EarlyRefusal(): Option<Error>
      reads this
    {
      if journal.Some? && !WellFormed(journal.value) then Some(CopyInvalidJournal)
      else if journal.Some? && !journal.value.legacy && journal.value.paths != paths then Some(CopyPathConflict)
      else if journal.None? && dest.Some? then Some(CopyOutputExists)
      else if journal.Some? && dest.None? && !(journal.value.legacy && journal.value.offset == 0) then
        Some(CopyDestinationMissing)
      else if journal.Some? && journal.value.sourceBytes != |source.bytes| then Some(CopySourceConflict)
      else if journal.Some? && !(!journal.value.legacy && journal.value.sourcePrint == PrintOf(source))
              && source.bytes != journal.value.sourceSha then Some(CopySourceConflict)
      else None
    }

    /** The progress receipt: durable bytes first, then the journal, replaced whole. */
    method Commit(offset: nat, complete: bool)
      requires Valid() && dest.Some? && offset <= |source.bytes| && dest.value.bytes == source.bytes[..offset]
      requires complete ==> offset == |source.bytes|
      modifies this`journal
      ensures Valid() && Sound() && journal.Some?
      ensures journal.value.offset == offset && journal.value.complete == complete
      ensures journal.value.destPrint == PrintOf(dest.value)
    {
      journal := Some(Journal(false, paths, source.bytes, |source.bytes|, offset, complete, PrintOf(source),
                              PrintOf(dest.value)));
    }

    /** Up to the ownership receipt: the checks, the empty file of a new job, and the tail a
        crash left, adopted only when it matches. */
    method Open(life: Option<nat>) returns (r: Opened)
      requires Valid()
      modifies this`dest, this`clock
      ensures Valid() && DestBytes() == old(DestBytes()) && (old(dest).Some? ==> dest == old(dest))
      ensures old(Sound()) ==> Sound()
      ensures old(EarlyRefusal()).Some? ==> r == Refuse(old(EarlyRefusal()).value) && dest == old(dest)
      ensures r.Refuse? ==> r.error == CopyDestinationConflict || old(EarlyRefusal()) == Some(r.error)
      ensures old(EarlyRefusal()).None? && old(dest).None? && old(journal).None? && life.Some? && life.value > 0 ==>
                dest.Some? && r == Ready(0, Some(life.value - 1))
      ensures r.Ready? ==>
                dest.Some? && r.offset <= |source.bytes| && DestBytes() == source.bytes[..r.offset]
                && (life.None? ==> r.steps.None?)
      ensures r.Died? ==> life.Some? && DestBytes() == []
      ensures (old(EarlyRefusal()).None? && life.None? && old(DestBytes()) <= source.bytes
               && (journal.Some? ==> journal.value.offset <= |old(DestBytes())|)) ==> r.Ready?
    {
      var refusal := EarlyRefusal();
      if refusal.Some? {
        return Refuse(refusal.value);
      }
      var steps := life;
      var verify :=
        journal.Some? && (journal.value.legacy || dest.None? || journal.value.destPrint != PrintOf(dest.value));
      var offset := if journal.Some? then journal.value.offset else 0;
      if dest.None? {
        if steps == Some(0) {
          return Died;
        }
        dest, clock := Some(File([], clock)), clock + 1;
        steps := Spend(steps);
      }
      var existing := |dest.value.bytes|;
      if !(offset <= existing <= |source.bytes|) {
        return Refuse(CopyDestinationConflict);
      }
      if verify {
        var same := VerifyPrefix(source.bytes, dest.value.bytes, existing);
        if !same {
          return Refuse(CopyDestinationConflict);
        }
        offset := existing;
      }
      assert dest.value.bytes[..existing] == dest.value.bytes;
      r := Ready(offset, steps);
    }

    /** The copy loop, from the ownership receipt on. */
    method Pump(start: nat, budget: nat, life: Option<nat>, tail: Bytes) returns (o: Outcome)
      requires Valid() && dest.Some? && start <= |source.bytes| && DestBytes() == source.bytes[..start]
      modifies this`dest, this`journal, this`clock
      ensures Valid() && old(DestBytes()) <= DestBytes()
      ensures !o.Refused? && (life.None? ==> o.Copied?)
      ensures life == Some(0) ==> o.Crashed? && dest == old(dest) && journal == old(journal)
      ensures life == Some(1) && budget > 0 && start < |source.bytes| ==>
                o.Crashed? && DestBytes() == old(DestBytes()) + tail && journal.Some?
      ensures o.Copied? || journal != old(journal) ==> Sound()
      ensures o.Copied? ==>
                && o.count == Min(budget, |source.bytes| - start) && start + o.count <= |source.bytes|
                && DestBytes() == source.bytes[..start + o.count] && o.complete == (start + o.count == |source.bytes|)
                && journal.Some? && journal.value.offset == |DestBytes()| && journal.value.complete == o.complete
      ensures o.Crashed? && journal == old(journal) ==> dest == old(dest) || Sound()
    {
      hide EarlyRefusal, Evidence;
      if life == Some(0) {
        return Crashed;
      }
      var offset, copied, steps := start, 0, Spend(life);
      Commit(offset, offset == |source.bytes|);
      while offset < |source.bytes| && copied < budget
        invariant offset <= |source.bytes| && copied <= budget && offset == start + copied
        invariant Valid() && Sound() && dest.Some? && dest.value.bytes == source.bytes[..offset]
        invariant journal.Some? && journal.value.offset == offset
                  && journal.value.complete == (offset == |source.bytes|)
        invariant life.None? ==> steps.None?
        invariant life == Some(1) ==> steps == Some(0) && copied == 0 && dest == old(dest)
        decreases |source.bytes| - offset
      {
        var length := Min(CHUNK_BYTES, Min(|source.bytes| - offset, budget - copied));
        if steps == Some(0) {
          Append(tail);
          return Crashed;
        }
        Append(source.bytes[offset..offset + length]);
        steps := Spend(steps);
        assert dest.value.bytes == source.bytes[..offset + length];
        offset, copied := offset + length, copied + length;
        if steps == Some(0) {
          return Crashed;
        }
        Commit(offset, offset == |source.bytes|);
        steps := Spend(steps);
      }
      o := Copied(copied, offset == |source.bytes|);
    }

    lemma SoundIsExpected()
      requires Sound()
      ensures EarlyRefusal() == if journal.None? && dest.Some? then Some(CopyOutputExists) else None
    {
    }

    /** A write at the end of the destination. */
    method Append(chunk: Bytes)
      requires Valid() && dest.Some?
      modifies this`dest, this`clock
      ensures Valid() && dest.Some? && dest.value.bytes == old(DestBytes()) + chunk
      ensures old(Sound()) && journal.Some? && !journal.value.complete ==> Sound()
    {
      dest, clock := Some(File(dest.value.bytes + chunk, clock)), clock + 1;
      assert journal.Some? && journal.value.offset <= |old(DestBytes())| ==>
               dest.value.bytes[..journal.value.offset] == old(DestBytes())[..journal.value.offset];
    }

    /** The documented use: the same call again while it answers incomplete.  From every state in
        which a call succeeds at all, the copy is whole after exactly as many calls as the rest needs. */
    method Repeat(budget: nat) returns (calls: nat)
      requires Valid() && Sound() && 1 <= budget <= MAXIMUM_BYTES
      requires dest.Some? == journal.Some? && DestBytes() <= source.bytes
      modifies this`dest, this`journal, this`clock
      ensures Valid() && Sound() && DestBytes() == source.bytes && journal.Some? && journal.value.complete
      ensures calls == CallsFor(|source.bytes| - |old(DestBytes())|, budget)
    {
      hide Evidence, EarlyRefusal, Sound, Valid;
      var o := Copy(budget, None, []);
      calls := 1;
      while !o.complete
        invariant Valid() && Sound() && o.Copied? && o.complete == (DestBytes() == source.bytes)
        invariant dest.Some? && journal.Some? && journal.value.complete == o.complete && DestBytes() <= source.bytes
        invariant calls + (if o.complete then 0 else CallsFor(|source.bytes| - |DestBytes()|, budget))
                  == CallsFor(|source.bytes| - |old(DestBytes())|, budget)
        decreases |source.bytes| - |DestBytes()|
      {
        assert |DestBytes()| < |source.bytes|;
        o := Copy(budget, None, []);
        calls := calls + 1;
      }
    }

    /** _copy_locked.  life says after how many durable writes the process dies, if it does; a
        write cut short may leave any tail behind the durable bytes. */
    method Copy(budget: nat, life: Option<nat>, tail: Bytes) returns (o: Outcome)
      requires Valid() && 1 <= budget <= MAXIMUM_BYTES
      modifies this`dest, this`journal, this`clock
      ensures Valid()
      // existing bytes are never changed or dropped
      ensures old(DestBytes()) <= DestBytes()
      // a destination that is not a prefix of the source is left alone, and so is its journal
      ensures old(dest).Some? && !(old(DestBytes()) <= source.bytes) ==>
                o.Refused? && dest == old(dest) && journal == old(journal)
      ensures old(EarlyRefusal()).Some? ==>
                o == Refused(old(EarlyRefusal()).value) && dest == old(dest) && journal == old(journal)
      // a new job cut before its first receipt leaves an empty orphan, one cut inside its first write any tail
      ensures old(dest).None? && old(journal).None? && life == Some(1) ==>
                o.Crashed? && DestBytes() == [] && dest.Some? && journal.None?
      ensures old(dest).None? && old(journal).None? && life == Some(2) && source.bytes != [] ==>
                o.Crashed? && DestBytes() == tail && dest.Some? && journal.Some?
      // a call that is not cut short copies exactly what its budget allows
      ensures o.Copied? ==>
                && |old(DestBytes())| <= |source.bytes| && o.count == Min(budget, |source.bytes| - |old(DestBytes())|)
                && DestBytes() == source.bytes[..|old(DestBytes())| + o.count]
                && o.complete == (DestBytes() == source.bytes)
                && Sound() && dest.Some? && journal.Some? && journal.value.offset == |DestBytes()|
                && journal.value.complete == o.complete
      ensures life.None? ==> !o.Crashed?
      // undisturbed, an uncut call succeeds exactly when a receipt exists for the destination, or neither
      // does, and whatever tail a crash left matches
      ensures old(Sound()) && life.None? ==>
                (o.Copied? <==> old(dest).Some? == old(journal).Some? && old(DestBytes()) <= source.bytes)
      ensures old(Sound()) && life.None? && old(dest).Some? && old(journal).None? ==> o == Refused(CopyOutputExists)
      ensures old(Sound()) && life.None? && old(journal).Some? && !(old(DestBytes()) <= source.bytes) ==>
                o == Refused(CopyDestinationConflict)
      // undisturbed, a crash at any point leaves the journal behind the destination
      ensures old(Sound()) ==> Sound()
    {
      hide Evidence;
      if Sound() {
        SoundIsExpected();
      }
      var r := Open(life);
      match r {
        case Refuse(e) => return Refused(e);
        case Died => return Crashed;
        case Ready(offset, steps) =>
          assert |old(DestBytes())| == offset;
          o := Pump(offset, budget, steps, tail);
      }
    }
  }

  /** Two crashes no retry gets past: an empty orphan without a receipt, and a first write that
      left one wrong byte. */
  method StuckCopies(paths: nat, bytes: Bytes, wrong: bv8) returns (orphan: Outcome, torn: Outcome)
    requires bytes != [] && wrong != bytes[0]
    ensures orphan == Refused(CopyOutputExists) && torn == Refused(CopyDestinationConflict)
  {
    var a := new Copier(paths, bytes);
    orphan := a.Copy(1, Some(1), []);
    orphan := a.Copy(1, None, []);
    var b := new Copier(paths, bytes);
    torn := b.Copy(1, Some(2), [wrong]);
    torn := b.Copy(1, None, []);
  }

  /** How many calls of the budget the rest of the source takes; the last may find nothing left. */
  function CallsFor(left: nat, budget: nat): nat
    requires budget > 0
  {
    if left <= budget then 1 else 1 + CallsFor(left - budget, budget)
  }

  lemma {:induction false} CallsAreBounded(left: nat, budget: nat)
    requires budget > 0
    ensures (CallsFor(left, budget) - 1) * budget <= left
  {
    if left > budget {
      CallsAreBounded(left - budget, budget);
      assert CallsFor(left, budget) * budget == CallsFor(left - budget, budget) * budget + budget;
    }
  }

  datatype Opened = Refuse(error: Error) | Died | Ready(offset: nat, steps: Option<nat>)

  /** One durable write fewer before the crash. */
  function Spend(life: Option<nat>): Option<nat> {
    if life.Some? && life.value > 0 then Some(life.value - 1) else life
  }
}
