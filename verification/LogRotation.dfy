/**
 Log files of the latency monitor. Slot 0 is the file being written, slot k its k-th predecessor
 (suffix ".k"). A file is the sequence of batches appended to it.
 */
module LogRotation {

  type File = seq<string>
  type Files = map<nat, File>

  function Size(file: File): nat {
    if file == [] then 0 else |file[0]| + Size(file[1..])
  }

  lemma {:induction false} SizeOfAppend(file: File, batch: string)
    ensures Size(file + [batch]) == Size(file) + |batch|
  {
    if file == [] {
      assert file + [batch] == [batch] && [batch][1..] == [];
    } else {
      assert (file + [batch])[0] == file[0] && (file + [batch])[1..] == file[1..] + [batch];
      SizeOfAppend(file[1..], batch);
    }
  }

  function At(files: Files, slot: nat): File {
    if slot in files then files[slot] else []
  }

  /** How many slots the configured number of files stands for: at least the live file. */
  function Slots(maxFiles: nat): nat { if maxFiles <= 1 then 1 else maxFiles }

  // ----- specification -----

  /** Slot k of `files` is what slot j of `start` was; a negative j means it is free. */
  ghost predicate Same(files: Files, k: nat, start: Files, j: int) {
    (k in files <==> 0 <= j && j in start) && (k in files && 0 <= j && j in start ==> files[k] == start[j])
  }

  /** The slot whose old file a rotation leaves in slot k: none for the live slot, the one before for
      the others, and slots beyond the limit are left alone. */
  function ShiftSource(k: nat, maxFiles: nat): int {
    if k >= Slots(maxFiles) then k else k - 1
  }

  /** The files of slots 0 to n - 2, each one slot higher. */
  function MovedUp(files: Files, n: nat): Files {
    if n <= 1 then map[]
    else if n - 2 in files then MovedUp(files, n - 1)[n - 1 := files[n - 2]]
    else MovedUp(files, n - 1)
  }

  function Shifted(files: Files, maxFiles: nat): Files {
    (map k | k in files && k >= Slots(maxFiles) :: files[k]) + MovedUp(files, Slots(maxFiles))
  }

  lemma {:induction false} MovedUpAt(files: Files, n: nat, k: nat)
    ensures k in MovedUp(files, n) <==> 1 <= k < n && (k - 1) in files
    ensures k in MovedUp(files, n) ==> MovedUp(files, n)[k] == files[k - 1]
  {
    if n > 1 {
      MovedUpAt(files, n - 1, k);
    }
  }

  lemma ShiftedSame(files: Files, maxFiles: nat, k: nat)
    ensures Same(Shifted(files, maxFiles), k, files, ShiftSource(k, maxFiles))
  {
    MovedUpAt(files, Slots(maxFiles), k);
  }

  function Write(files: Files, batch: string, maxBytes: nat, maxFiles: nat): Files {
    var room := if Size(At(files, 0)) + |batch| > maxBytes then Shifted(files, maxFiles) else files;
    room[0 := At(room, 0) + [batch]]
  }

  // ----- the rename loop -----

  /** Where slot k's file came from once the loop has come down to `index`: slots above it have been
      shifted, it is free itself, the rest is as it was. */
  function LoopSource(k: nat, index: nat, maxFiles: nat): int {
    if index < k < maxFiles then k - 1 else if k == index then -1 else k
  }

  ghost predicate LoopShifted(start: Files, files: Files, index: nat, maxFiles: nat) {
    forall k: nat :: Same(files, k, start, LoopSource(k, index, maxFiles))
  }

  class Logs {
    var files: Files

    constructor ()
      ensures files == map[]
    {
      files := map[];
    }

    method Remove(slot: nat)
      modifies this
      ensures files == old(files) - {slot}
    {
      files := files - {slot};
    }

    /** Renaming onto an existing file replaces it; renaming a missing file is an ignored error. */
    method Rename(source: nat, target: nat)
      requires source != target
      modifies this
      ensures files == if source in old(files) then (old(files) - {source})[target := old(files)[source]] else old(files)
    {
      if source in files {
        var moved := files[source];
        files := (files - {source})[target := moved];
      }
    }

    method Rotate(maxFiles: nat)
      modifies this
      ensures files == Shifted(old(files), maxFiles)
    {
      if maxFiles <= 1 {
        Remove(0);
        RemoveIsShift(old(files), maxFiles);
        return;
      }
      Remove(maxFiles - 1);
      ghost var start := old(files);
      var index := maxFiles - 1;
      while index > 1
        invariant 1 <= index <= maxFiles - 1
        invariant LoopShifted(start, files, index, maxFiles)
      {
        ghost var before := files;
        Rename(index - 1, index);
        RenameShifts(start, before, files, index, index - 1, maxFiles);
        index := index - 1;
      }
      ghost var before := files;
      Rename(0, 1);
      RenameShifts(start, before, files, 1, 0, maxFiles);
      LoopEndsShifted(start, files, maxFiles);
    }

    method WriteBatch(batch: string, maxBytes: nat, maxFiles: nat)
      modifies this
      ensures files == Write(old(files), batch, maxBytes, maxFiles)
    {
      var current := if 0 in files then Size(files[0]) else 0;
      if current + |batch| > maxBytes {
        Rotate(maxFiles);
      }
      files := files[0 := At(files, 0) + [batch]];
    }
  }

  lemma RenameShifts(start: Files, before: Files, after: Files, index: nat, next: nat, maxFiles: nat)
    requires 1 <= index < maxFiles && next == index - 1 && LoopShifted(start, before, index, maxFiles)
    requires after == if next in before then (before - {next})[index := before[next]] else before
    ensures LoopShifted(start, after, next, maxFiles)
  {
    forall k: nat
      ensures Same(after, k, start, LoopSource(k, next, maxFiles))
    {
      assert Same(before, k, start, LoopSource(k, index, maxFiles));
      assert Same(before, next, start, LoopSource(next, index, maxFiles));
    }
  }

  lemma LoopEndsShifted(start: Files, files: Files, maxFiles: nat)
    requires maxFiles > 1 && LoopShifted(start, files, 0, maxFiles)
    ensures files == Shifted(start, maxFiles)
  {
    var goal := Shifted(start, maxFiles);
    forall k: nat
      ensures (k in files <==> k in goal) && (k in files && k in goal ==> files[k] == goal[k])
    {
      assert Same(files, k, start, LoopSource(k, 0, maxFiles));
      ShiftedSame(start, maxFiles, k);
    }
  }

  lemma RemoveIsShift(start: Files, maxFiles: nat)
    requires maxFiles <= 1
    ensures start - {0} == Shifted(start, maxFiles)
  {
    var goal := Shifted(start, maxFiles);
    forall k: nat
      ensures (k in start - {0} <==> k in goal) && (k in start - {0} && k in goal ==> start[k] == goal[k])
    {
      ShiftedSame(start, maxFiles, k);
    }
  }

  lemma ShiftedAt(files: Files, maxFiles: nat, k: nat)
    ensures At(Shifted(files, maxFiles), k) ==
      if k >= Slots(maxFiles) then At(files, k) else if k == 0 then [] else At(files, k - 1)
    ensures k in Shifted(files, maxFiles) ==> k > 0 && (k in files || k < Slots(maxFiles))
  {
    ShiftedSame(files, maxFiles, k);
  }

  // ----- runs -----

  datatype Entry = Entry(batch: string, maxBytes: nat, maxFiles: nat)

  function After(entries: seq<Entry>): Files {
    if entries == [] then map[]
    else
      var last := entries[|entries| - 1];
      Write(After(entries[..|entries| - 1]), last.batch, last.maxBytes, last.maxFiles)
  }

  function Written(entries: seq<Entry>): (r: seq<string>)
    ensures |r| == |entries|
  {
    if entries == [] then [] else Written(entries[..|entries| - 1]) + [entries[|entries| - 1].batch]
  }

  /** The batches in slots n - 1 down to 1, oldest first. */
  function Older(files: Files, n: nat): seq<string> {
    if n <= 1 then [] else At(files, n - 1) + Older(files, n - 1)
  }

  /** All batches found when the slots below n are read oldest first. */
  function ReadBack(files: Files, n: nat): seq<string> {
    Older(files, n) + At(files, 0)
  }

  ghost predicate IsSuffix(a: seq<string>, b: seq<string>) {
    |a| <= |b| && b[|b| - |a|..] == a
  }

  ghost predicate NeverShrinks(entries: seq<Entry>) {
    forall i, j :: 0 <= i < j < |entries| ==> entries[i].maxFiles <= entries[j].maxFiles
  }

  function LastSlots(entries: seq<Entry>): nat {
    if entries == [] then 1 else Slots(entries[|entries| - 1].maxFiles)
  }

  lemma {:induction false} OlderExtends(files: Files, n: nat, m: nat)
    requires 1 <= n <= m && forall k :: k in files ==> k < n
    ensures Older(files, m) == Older(files, n)
    decreases m
  {
    if n < m {
      OlderExtends(files, n, m - 1);
      assert At(files, m - 1) == [];
    }
  }

  lemma {:induction false} OlderSame(a: Files, b: Files, n: nat)
    requires forall k :: 1 <= k < n ==> At(a, k) == At(b, k)
    ensures Older(a, n) == Older(b, n)
  {
    if n > 1 {
      OlderSame(a, b, n - 1);
    }
  }

  lemma {:induction false} OlderOfShift(files: Files, maxFiles: nat, n: nat)
    requires 2 <= n <= Slots(maxFiles)
    ensures Older(Shifted(files, maxFiles), n) == ReadBack(files, n - 1)
    decreases n
  {
    ShiftedAt(files, maxFiles, n - 1);
    if n > 2 {
      OlderOfShift(files, maxFiles, n - 1);
      assert At(files, n - 2) + (Older(files, n - 2) + At(files, 0)) == At(files, n - 2) + Older(files, n - 2) + At(files, 0);
    }
  }

  /** Appending to slot 0 appends to what is read back. */
  lemma ReadBackOfAppend(files: Files, batch: string, n: nat)
    ensures ReadBack(files[0 := At(files, 0) + [batch]], n) == ReadBack(files, n) + [batch]
  {
    var files' := files[0 := At(files, 0) + [batch]];
    OlderSame(files, files', n);
    assert Older(files, n) + (At(files, 0) + [batch]) == Older(files, n) + At(files, 0) + [batch];
  }

  lemma SuffixOfConcat(a: seq<string>, b: seq<string>, all: seq<string>)
    requires IsSuffix(a + b, all)
    ensures IsSuffix(b, all)
  {
  }

  lemma SuffixOfAppend(a: seq<string>, all: seq<string>, batch: string)
    requires IsSuffix(a, all)
    ensures IsSuffix(a + [batch], all + [batch])
  {
  }

  /** Rotation only forgets the oldest slot. */
  lemma ShiftKeepsSuffix(files: Files, maxFiles: nat, output: seq<string>)
    requires IsSuffix(ReadBack(files, Slots(maxFiles)), output)
    ensures IsSuffix(ReadBack(Shifted(files, maxFiles), Slots(maxFiles)), output)
  {
    var m := Slots(maxFiles);
    var r := Shifted(files, maxFiles);
    ShiftedAt(files, maxFiles, 0);
    if m > 1 {
      OlderOfShift(files, maxFiles, m);
      assert ReadBack(files, m) == At(files, m - 1) + ReadBack(files, m - 1);
      SuffixOfConcat(At(files, m - 1), ReadBack(files, m - 1), output);
      assert ReadBack(r, m) == ReadBack(files, m - 1);
    }
  }

  lemma WriteKeepsSuffix(files: Files, e: Entry, n: nat, output: seq<string>)
    requires 1 <= n <= Slots(e.maxFiles) && (forall k :: k in files ==> k < n)
    requires IsSuffix(ReadBack(files, n), output)
    ensures var files' := Write(files, e.batch, e.maxBytes, e.maxFiles);
            && (forall k :: k in files' ==> k < Slots(e.maxFiles))
            && IsSuffix(ReadBack(files', Slots(e.maxFiles)), output + [e.batch])
  {
    var m := Slots(e.maxFiles);
    OlderExtends(files, n, m);
    var room := files;
    if Size(At(files, 0)) + |e.batch| > e.maxBytes {
      ShiftKeepsSuffix(files, e.maxFiles, output);
      room := Shifted(files, e.maxFiles);
      forall k | k in room
        ensures k < m
      {
        ShiftedAt(files, e.maxFiles, k);
      }
    }
    ReadBackOfAppend(room, e.batch, m);
    SuffixOfAppend(ReadBack(room, m), output, e.batch);
  }

  /** As long as the configured number of files never shrinks, the files read oldest to newest hold a
      suffix of all batches ever written, whole and in order, in at most that many files. */
  lemma {:induction false} RotationKeepsSuffix(entries: seq<Entry>)
    requires NeverShrinks(entries)
    ensures forall k :: k in After(entries) ==> k < LastSlots(entries)
    ensures IsSuffix(ReadBack(After(entries), LastSlots(entries)), Written(entries))
  {
    if entries == [] {
      assert ReadBack(map[], 1) == [];
    } else {
      var n := |entries| - 1;
      RotationKeepsSuffix(entries[..n]);
      WriteKeepsSuffix(After(entries[..n]), entries[n], LastSlots(entries[..n]), Written(entries[..n]));
    }
  }

  /** Every file stays within the largest limit in force so far or holds a single batch. */
  ghost predicate Bounded(files: Files, limit: nat) {
    forall k :: k in files ==> Size(files[k]) <= limit || |files[k]| == 1
  }

  lemma ShiftStaysBounded(files: Files, maxFiles: nat, limit: nat)
    requires Bounded(files, limit)
    ensures Bounded(Shifted(files, maxFiles), limit)
  {
    forall k | k in Shifted(files, maxFiles)
      ensures Size(Shifted(files, maxFiles)[k]) <= limit || |Shifted(files, maxFiles)[k]| == 1
    {
      ShiftedSame(files, maxFiles, k);
    }
  }

  lemma WriteStaysBounded(files: Files, e: Entry, limit: nat)
    requires Bounded(files, limit) && e.maxBytes <= limit
    ensures Bounded(Write(files, e.batch, e.maxBytes, e.maxFiles), limit)
  {
    if Size(At(files, 0)) + |e.batch| > e.maxBytes {
      ShiftStaysBounded(files, e.maxFiles, limit);
      ShiftedAt(files, e.maxFiles, 0);
    } else {
      SizeOfAppend(At(files, 0), e.batch);
    }
  }

  lemma {:induction false} FilesStayBounded(entries: seq<Entry>, limit: nat)
    requires forall i :: 0 <= i < |entries| ==> entries[i].maxBytes <= limit
    ensures Bounded(After(entries), limit)
  {
    if entries != [] {
      var n := |entries| - 1;
      FilesStayBounded(entries[..n], limit);
      WriteStaysBounded(After(entries[..n]), entries[n], limit);
    }
  }

  lemma RotatingWriteAt(files: Files, batch: string, maxBytes: nat, maxFiles: nat)
    requires Size(At(files, 0)) + |batch| > maxBytes
    ensures var files' := Write(files, batch, maxBytes, maxFiles);
            At(files', 0) == [batch] && forall k :: k > 0 ==> At(files', k) == At(Shifted(files, maxFiles), k)
  {
    ShiftedAt(files, maxFiles, 0);
  }

  // ----- what a write does -----

  /** A batch that fits is appended to the live file and nothing else changes. One that does not starts a new live
      file: the others move up by one, and of those within the limit only the oldest is dropped. */
  lemma WriteIs(files: Files, e: Entry, k: nat)
    ensures var after, limit := Write(files, e.batch, e.maxBytes, e.maxFiles), if e.maxFiles <= 1 then 1 else e.maxFiles;
            if Size(At(files, 0)) + |e.batch| <= e.maxBytes
            then At(after, k) == if k == 0 then At(files, 0) + [e.batch] else At(files, k)
            else At(after, k) == if k == 0 then [e.batch] else if k < limit then At(files, k - 1) else At(files, k)
  {
    ShiftedAt(files, e.maxFiles, k);
    ShiftedAt(files, e.maxFiles, 0);
  }

  /** The size of a file is the number of characters in it. */
  lemma {:induction false} SizeIs(file: File, k: nat)
    requires k < |file|
    ensures Size(file) == Size(file[..k]) + |file[k]| + Size(file[k + 1..])
    decreases |file|
  {
    var n := |file| - 1;
    SizeOfAppend(file[..n], file[n]);
    assert file == file[..n] + [file[n]];
    if k < n {
      SizeIs(file[..n], k);
      assert file[..n][..k] == file[..k];
      assert file[k + 1..] == file[..n][k + 1..] + [file[n]];
      SizeOfAppend(file[..n][k + 1..], file[n]);
    } else {
      assert file[k + 1..] == [];
    }
  }

  // ----- exactly when the disk holds a suffix -----

  /** The batches in slots hi - 1 down to lo, oldest first. */
  function Stretch(files: Files, lo: nat, hi: nat): seq<string>
    decreases hi
  {
    if hi <= lo then [] else At(files, hi - 1) + Stretch(files, lo, hi - 1)
  }

  ghost predicate AllBelow(files: Files, n: nat) { forall k :: k in files ==> k < n }

  predicate Rotates(files: Files, e: Entry) { Size(At(files, 0)) + |e.batch| > e.maxBytes }

  /** The write drops a file while an older one, beyond the limit in force, stays on disk. */
  ghost predicate LosesMiddle(files: Files, e: Entry) {
    && Rotates(files, e) && At(files, Slots(e.maxFiles) - 1) != []
    && exists k :: k in files && k >= Slots(e.maxFiles) && files[k] != []
  }

  ghost predicate Distinct(batches: seq<string>) {
    forall i, j :: 0 <= i < j < |batches| ==> batches[i] != batches[j]
  }

  lemma Nested(a: seq<string>, b: seq<string>, c: seq<string>)
    ensures a + (b + c) == (a + b) + c
  {
  }

  lemma {:induction false} OlderSplits(files: Files, lo: nat, hi: nat)
    requires 1 <= lo <= hi
    ensures Older(files, hi) == Stretch(files, lo, hi) + Older(files, lo)
    decreases hi
  {
    if lo < hi {
      OlderSplits(files, lo, hi - 1);
      Nested(At(files, hi - 1), Stretch(files, lo, hi - 1), Older(files, lo));
    }
  }

  lemma {:induction false} StretchSame(a: Files, b: Files, lo: nat, hi: nat)
    requires forall k :: lo <= k < hi ==> At(a, k) == At(b, k)
    ensures Stretch(a, lo, hi) == Stretch(b, lo, hi)
    decreases hi
  {
    if lo < hi {
      StretchSame(a, b, lo, hi - 1);
    }
  }

  lemma {:induction false} StretchEmptyIff(files: Files, lo: nat, hi: nat)
    ensures Stretch(files, lo, hi) == [] <==> forall k :: lo <= k < hi ==> At(files, k) == []
    decreases hi
  {
    if lo < hi {
      StretchEmptyIff(files, lo, hi - 1);
      if Stretch(files, lo, hi) == [] {
        assert |At(files, hi - 1)| + |Stretch(files, lo, hi - 1)| == 0;
      }
    }
  }

  /** What a rotation keeps below its limit: all but the oldest slot. */
  function Kept(files: Files, slots: nat): seq<string> { if slots <= 1 then [] else ReadBack(files, slots - 1) }

  lemma Regroup(a: seq<string>, l: seq<string>, r: seq<string>, z: seq<string>)
    ensures (a + (l + r)) + z == (a + l) + (r + z) && (a + []) + z == (a + z) + []
  {
  }

  lemma DiskBeforeRotation(files: Files, slots: nat, n: nat)
    requires 1 <= slots <= n
    ensures ReadBack(files, n) == Stretch(files, slots, n) + At(files, slots - 1) + Kept(files, slots)
  {
    OlderSplits(files, slots, n);
    Regroup(Stretch(files, slots, n), At(files, slots - 1), Older(files, slots - 1), At(files, 0));
  }

  lemma DiskAfterRotation(files: Files, maxFiles: nat, n: nat)
    requires Slots(maxFiles) <= n
    ensures ReadBack(Shifted(files, maxFiles), n) == Stretch(files, Slots(maxFiles), n) + Kept(files, Slots(maxFiles))
  {
    var slots, room := Slots(maxFiles), Shifted(files, maxFiles);
    forall k | slots <= k < n
      ensures At(files, k) == At(room, k)
    {
      ShiftedAt(files, maxFiles, k);
    }
    StretchSame(files, room, slots, n);
    OlderSplits(room, slots, n);
    ShiftedAt(files, maxFiles, 0);
    if slots > 1 {
      OlderOfShift(files, maxFiles, slots);
    }
  }

  /** Taking out of the middle of a suffix leaves a suffix only if nothing was taken or nothing stood before. */
  lemma MiddleTakenIff(a: seq<string>, l: seq<string>, r: seq<string>, output: seq<string>)
    requires IsSuffix(a + l + r, output) && Distinct(output)
    ensures IsSuffix(a + r, output) <==> a == [] || l == []
  {
    if a == [] {
      assert a + l + r == l + r && a + r == r;
      SuffixOfConcat(l, r, output);
    } else if l == [] {
      assert a + l + r == a + r;
    } else {
      LastBefore(a + l, r, output);
      LastBefore(a, r, output);
      LastBefore(a, l + r, output);
      assert a + l + r == a + (l + r);
    }
  }

  lemma LastBefore(a: seq<string>, r: seq<string>, output: seq<string>)
    requires a != []
    ensures IsSuffix(a + r, output) ==> |r| < |output| && output[|output| - |r| - 1] == a[|a| - 1]
  {
    if IsSuffix(a + r, output) {
      assert output[|output| - |a + r|..][|a| - 1] == (a + r)[|a| - 1];
    }
  }

  lemma SuffixOfAppendIff(a: seq<string>, all: seq<string>, batch: string)
    ensures IsSuffix(a + [batch], all + [batch]) <==> IsSuffix(a, all)
  {
    if IsSuffix(a, all) {
      SuffixOfAppend(a, all, batch);
    }
    if IsSuffix(a + [batch], all + [batch]) {
      var n := |all| - |a|;
      forall i | 0 <= i < |a|
        ensures all[n..][i] == a[i]
      {
        assert (all + [batch])[n..][i] == (a + [batch])[i];
      }
      assert all[n..] == a;
    }
  }

  lemma LosesMiddleIff(files: Files, e: Entry, n: nat)
    requires AllBelow(files, n)
    ensures LosesMiddle(files, e) <==>
            Rotates(files, e) && Stretch(files, Slots(e.maxFiles), n) != [] && At(files, Slots(e.maxFiles) - 1) != []
  {
    var slots := Slots(e.maxFiles);
    StretchEmptyIff(files, slots, n);
    if Stretch(files, slots, n) != [] {
      var k :| slots <= k < n && At(files, k) != [];
      assert k in files && files[k] != [];
    }
    if exists k :: k in files && k >= slots && files[k] != [] {
      var k :| k in files && k >= slots && files[k] != [];
      assert At(files, k) != [];
    }
  }

  /** A write keeps the disk a suffix of the output exactly when it does not lose the middle. */
  lemma WriteKeepsSuffixIff(files: Files, e: Entry, n: nat, output: seq<string>)
    requires AllBelow(files, n) && Slots(e.maxFiles) <= n
    requires IsSuffix(ReadBack(files, n), output) && Distinct(output)
    ensures IsSuffix(ReadBack(Write(files, e.batch, e.maxBytes, e.maxFiles), n), output + [e.batch])
       <==> !LosesMiddle(files, e)
  {
    var slots := Slots(e.maxFiles);
    LosesMiddleIff(files, e, n);
    var room := if Rotates(files, e) then Shifted(files, e.maxFiles) else files;
    ReadBackOfAppend(room, e.batch, n);
    SuffixOfAppendIff(ReadBack(room, n), output, e.batch);
    if Rotates(files, e) {
      DiskBeforeRotation(files, slots, n);
      DiskAfterRotation(files, e.maxFiles, n);
      MiddleTakenIff(Stretch(files, slots, n), At(files, slots - 1), Kept(files, slots), output);
    }
  }

  /** A bound on the slots a trace ever fills. */
  function Extent(entries: seq<Entry>): (n: nat)
    ensures n >= 1
    ensures forall i :: 0 <= i < |entries| ==> Slots(entries[i].maxFiles) <= n
  {
    if entries == [] then 1
    else
      var rest, last := Extent(entries[..|entries| - 1]), Slots(entries[|entries| - 1].maxFiles);
      if rest < last then last else rest
  }

  lemma WriteStaysBelow(files: Files, e: Entry, n: nat)
    requires AllBelow(files, n) && Slots(e.maxFiles) <= n
    ensures AllBelow(Write(files, e.batch, e.maxBytes, e.maxFiles), n)
  {
    forall k | k in Shifted(files, e.maxFiles)
      ensures k < n
    {
      ShiftedAt(files, e.maxFiles, k);
    }
  }

  lemma {:induction false} FilesStayBelow(entries: seq<Entry>, n: nat)
    requires n >= 1 && forall i :: 0 <= i < |entries| ==> Slots(entries[i].maxFiles) <= n
    ensures AllBelow(After(entries), n)
  {
    if entries != [] {
      FilesStayBelow(entries[..|entries| - 1], n);
      WriteStaysBelow(After(entries[..|entries| - 1]), entries[|entries| - 1], n);
    }
  }

  /** After every write of the trace the files on disk, read oldest to newest, are a suffix of the output. */
  ghost predicate AlwaysSuffix(entries: seq<Entry>, n: nat) {
    IsSuffix(ReadBack(After(entries), n), Written(entries)) &&
    (entries == [] || AlwaysSuffix(entries[..|entries| - 1], n))
  }

  ghost predicate NeverLosesMiddle(entries: seq<Entry>) {
    entries == [] ||
    (!LosesMiddle(After(entries[..|entries| - 1]), entries[|entries| - 1]) && NeverLosesMiddle(entries[..|entries| - 1]))
  }

  lemma {:induction false} DiskIsSuffixWithin(entries: seq<Entry>, n: nat)
    requires n >= 1 && (forall i :: 0 <= i < |entries| ==> Slots(entries[i].maxFiles) <= n) && Distinct(Written(entries))
    ensures AlwaysSuffix(entries, n) <==> NeverLosesMiddle(entries)
  {
    if entries == [] {
      OlderExtends(map[], 1, n);
    } else {
      var before, e := entries[..|entries| - 1], entries[|entries| - 1];
      assert Written(entries)[..|before|] == Written(before);
      DiskIsSuffixWithin(before, n);
      FilesStayBelow(before, n);
      if AlwaysSuffix(before, n) {
        WriteKeepsSuffixIff(After(before), e, n, Written(before));
      }
    }
  }

  /** For distinct batches: all the files on disk, read oldest to newest, are a suffix of the output after
      every write of a trace exactly when no write of it loses the middle. */
  lemma DiskIsSuffixIff(entries: seq<Entry>)
    requires Distinct(Written(entries))
    ensures AllBelow(After(entries), Extent(entries))
    ensures AlwaysSuffix(entries, Extent(entries)) <==> NeverLosesMiddle(entries)
  {
    FilesStayBelow(entries, Extent(entries));
    DiskIsSuffixWithin(entries, Extent(entries));
  }

  /** One more write that rotates with a limit of two or three files. */
  lemma RotatingTrace(entries: seq<Entry>, e: Entry)
    requires e.maxBytes == 0 && |e.batch| > 0 && 2 <= e.maxFiles <= 3
    ensures var before, after := After(entries), After(entries + [e]);
            && At(after, 0) == [e.batch] && At(after, 1) == At(before, 0)
            && At(after, 2) == if e.maxFiles == 3 then At(before, 1) else At(before, 2)
    ensures Written(entries + [e]) == Written(entries) + [e.batch]
    ensures Extent(entries) <= 3 ==> Extent(entries) <= Extent(entries + [e]) <= 3 && Extent(entries + [e]) >= e.maxFiles
  {
    TraceSnoc(entries, e);
    RotatingSlots(After(entries), e);
  }

  lemma ThreeFiles(a: string, b: string, c: string)
    requires |a| > 0 && |b| > 0 && |c| > 0
    ensures var entries := [Entry(a, 0, 3), Entry(b, 0, 3), Entry(c, 0, 3)];
            && At(After(entries), 0) == [c] && At(After(entries), 1) == [b] && At(After(entries), 2) == [a]
            && Written(entries) == [a, b, c] && Extent(entries) == 3
  {
    RotatingTrace([], Entry(a, 0, 3));
    assert [] + [Entry(a, 0, 3)] == [Entry(a, 0, 3)];
    RotatingTrace([Entry(a, 0, 3)], Entry(b, 0, 3));
    assert [Entry(a, 0, 3)] + [Entry(b, 0, 3)] == [Entry(a, 0, 3), Entry(b, 0, 3)];
    RotatingTrace([Entry(a, 0, 3), Entry(b, 0, 3)], Entry(c, 0, 3));
    assert [Entry(a, 0, 3), Entry(b, 0, 3)] + [Entry(c, 0, 3)] == [Entry(a, 0, 3), Entry(b, 0, 3), Entry(c, 0, 3)];
  }

  /** Shrinking the number of files can lose the middle: from the empty directory, a file beyond the new
      limit stays while a younger one is dropped. */
  lemma ShrinkingLosesTheMiddle(a: string, b: string, c: string, d: string)
    requires |a| > 0 && |b| > 0 && |c| > 0 && |d| > 0 && a != b
    ensures var entries := [Entry(a, 0, 3), Entry(b, 0, 3), Entry(c, 0, 3), Entry(d, 0, 2)];
            && Written(entries) == [a, b, c, d] && ReadBack(After(entries), Extent(entries)) == [a, c, d]
            && !IsSuffix([a, c, d], [a, b, c, d])
  {
    var three := [Entry(a, 0, 3), Entry(b, 0, 3), Entry(c, 0, 3)];
    ThreeFiles(a, b, c);
    RotatingTrace(three, Entry(d, 0, 2));
    assert three + [Entry(d, 0, 2)] == [Entry(a, 0, 3), Entry(b, 0, 3), Entry(c, 0, 3), Entry(d, 0, 2)];
    ReadThree(After(three + [Entry(d, 0, 2)]));
    assert [a, b, c, d][1..] == [b, c, d] && [b, c, d][0] != [a, c, d][0];
  }

  lemma TraceSnoc(entries: seq<Entry>, e: Entry)
    ensures After(entries + [e]) == Write(After(entries), e.batch, e.maxBytes, e.maxFiles)
    ensures Written(entries + [e]) == Written(entries) + [e.batch]
    ensures Extent(entries + [e]) ==
            if Extent(entries) < Slots(e.maxFiles) then Slots(e.maxFiles) else Extent(entries)
  {
    assert (entries + [e])[..|entries|] == entries;
  }

  /** Slots 0 to 2 after a write that rotates with a limit of two or three files. */
  lemma RotatingSlots(files: Files, e: Entry)
    requires Rotates(files, e) && 2 <= e.maxFiles <= 3
    ensures var after := Write(files, e.batch, e.maxBytes, e.maxFiles);
            && At(after, 0) == [e.batch] && At(after, 1) == At(files, 0)
            && At(after, 2) == if e.maxFiles == 3 then At(files, 1) else At(files, 2)
  {
    RotatingWriteAt(files, e.batch, e.maxBytes, e.maxFiles);
    ShiftedAt(files, e.maxFiles, 1);
    ShiftedAt(files, e.maxFiles, 2);
  }

  lemma ReadThree(files: Files)
    ensures ReadBack(files, 3) == At(files, 2) + At(files, 1) + At(files, 0)
  {
    assert Older(files, 2) == At(files, 1);
    assert Older(files, 3) == At(files, 2) + Older(files, 2);
  }

  /** A number of files that never shrinks never loses the middle. */
  lemma {:induction false} GrowingNeverLoses(entries: seq<Entry>)
    requires NeverShrinks(entries)
    ensures NeverLosesMiddle(entries)
  {
    if entries != [] {
      var n := |entries| - 1;
      RotationKeepsSuffix(entries[..n]);
      assert n > 0 ==> entries[n - 1].maxFiles <= entries[n].maxFiles;
      assert LastSlots(entries[..n]) <= Slots(entries[n].maxFiles);
      GrowingNeverLoses(entries[..n]);
    }
  }
}
