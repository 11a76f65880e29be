/** `_spool_file`: a directory that one function fills and ages out. */
module Spool {
  import opened Protocol

  /** `proper` holds of a regular file of the user's with a mail file's name. */
  datatype File = File(name: nat, modified: int, size: nat, proper: bool)

  const RETENTION: int := 600
  const MAX_FILES: nat := 96
  const MAX_FILE: nat := 65536

  function Total(files: seq<File>): nat {
    if files == [] then 0 else files[0].size + Total(files[1..])
  }

  /** What ageing leaves of one file. */
  function Aged(file: File, cutoff: int): seq<File> {
    if file.modified < cutoff then [] else [file]
  }

  /** The files young enough to stay, in order. */
  function Young(files: seq<File>, cutoff: int): seq<File> {
    if files == [] then [] else Aged(files[0], cutoff) + Young(files[1..], cutoff)
  }

  predicate Bounded(files: seq<File>) {
    |files| <= MAX_FILES && Total(files) <= MAX_FILES * MAX_FILE
  }

  /** How one send ends: `Sent`, or an exception, or the end of the process while it writes. */
  datatype Outcome = Sent | TooMany | Strange | Full | Exists | WriteFailed | Died

  /** How writing the new file ends; a killed process leaves what it had written. */
  datatype Ending = Completes | Fails | Dies(stored: nat)

  datatype Scanned = Scanned(left: seq<File>, fault: Option<Outcome>)

  /** The scan: old files go until it ends, or stops at its guard or at a strange file. */
  function Scan(files: seq<File>, cutoff: int, budget: nat): Scanned {
    if files == [] then Scanned([], None)
    else if budget == 0 then Scanned(files, Some(TooMany))
    else if !files[0].proper then Scanned(files, Some(Strange))
    else
      var rest := Scan(files[1..], cutoff, budget - 1);
      Scanned(Aged(files[0], cutoff) + rest.left, rest.fault)
  }

  predicate Named(files: seq<File>, name: nat) {
    exists i :: 0 <= i < |files| && files[i].name == name
  }

  /** What one send leaves: files that are too old go first, and the new one comes last. */
  function Send(files: seq<File>, a: Attempt): (seq<File>, Outcome) {
    var scanned := Scan(files, a.now - RETENTION, 2 * MAX_FILES);
    var left := scanned.left;
    if scanned.fault.Some? then (left, scanned.fault.value)
    else if |left| >= MAX_FILES || Total(left) + a.size > MAX_FILES * MAX_FILE then (left, Full)
    else if Named(left, a.name) then (left, Exists)
    else
      match a.ending
      case Completes => (left + [File(a.name, a.now, a.size, true)], Sent)
      case Fails => (left, WriteFailed)
      case Dies(stored) => (left + [File(a.name, a.now, Min(stored, a.size), true)], Died)
  }

  function Min(a: nat, b: nat): nat {
    if a < b then a else b
  }

  datatype Attempt = Attempt(name: nat, size: nat, now: int, ending: Ending)

  lemma {:induction false} TotalAppend(a: seq<File>, b: seq<File>)
    ensures Total(a + b) == Total(a) + Total(b)
    decreases |a|
  {
    if a == [] {
      assert a + b == b;
    } else {
      assert (a + b)[1..] == a[1..] + b;
      TotalAppend(a[1..], b);
    }
  }

  lemma {:induction false} YoungAppend(a: seq<File>, b: seq<File>, cutoff: int)
    ensures Young(a + b, cutoff) == Young(a, cutoff) + Young(b, cutoff)
    decreases |a|
  {
    if a == [] {
      assert a + b == b;
    } else {
      assert (a + b)[1..] == a[1..] + b;
      YoungAppend(a[1..], b, cutoff);
    }
  }

  lemma Associate(a: seq<File>, b: seq<File>, c: seq<File>)
    ensures a + (b + c) == a + b + c
  {
  }

  lemma ScanHead(file: File, rest: seq<File>, cutoff: int, budget: nat)
    requires file.proper && budget > 0
    ensures var scanned := Scan(rest, cutoff, budget - 1);
            Scan([file] + rest, cutoff, budget) == Scanned(Aged(file, cutoff) + scanned.left, scanned.fault)
  {
    assert ([file] + rest)[1..] == rest;
  }

  /** A scan that has passed some proper files. */
  lemma {:induction false} ScanSplit(done: seq<File>, rest: seq<File>, cutoff: int, budget: nat)
    requires |done| <= budget && forall i :: 0 <= i < |done| ==> done[i].proper
    ensures var scanned := Scan(rest, cutoff, budget - |done|);
            Scan(done + rest, cutoff, budget) == Scanned(Young(done, cutoff) + scanned.left, scanned.fault)
    decreases |done|
  {
    if done == [] {
      assert done + rest == rest;
    } else {
      ScanSplit(done[1..], rest, cutoff, budget - 1);
      ScanHead(done[0], done[1..] + rest, cutoff, budget);
      assert done + rest == [done[0]] + (done[1..] + rest);
      Associate(Aged(done[0], cutoff), Young(done[1..], cutoff), Scan(rest, cutoff, budget - |done|).left);
    }
  }

  class Directory {
    var files: seq<File>

    constructor ()
      ensures files == []
    {
      files := [];
    }

    /** `os.scandir` may list the files in any order; `files` is that order. */
    method SpoolFile(a: Attempt) returns (outcome: Outcome)
      modifies this
      ensures (files, outcome) == Send(old(files), a)
    {
      var fault, count, total := Age(a.now - RETENTION);
      if fault.Some? {
        return fault.value;
      }
      var kept := files;
      if count >= MAX_FILES || total + a.size > MAX_FILES * MAX_FILE {
        return Full;
      }
      if Named(kept, a.name) {
        return Exists;
      }
      files := kept + [File(a.name, a.now, if a.ending.Dies? then Min(a.ending.stored, a.size) else a.size, true)];
      if a.ending.Fails? {
        files := kept;
        return WriteFailed;
      }
      return if a.ending.Dies? then Died else Sent;
    }

    /** The loop over the directory's entries. */
    method Age(cutoff: int) returns (fault: Option<Outcome>, count: nat, total: nat)
      modifies this
      ensures fault.None? ==> count == |files| && total == Total(files)
      ensures Scanned(files, fault) == Scan(old(files), cutoff, 2 * MAX_FILES)
    {
      fault, count, total := None, 0, 0;
      var entries := files;
      var kept: seq<File> := [];
      for examined := 0 to |entries|
        invariant kept == Young(entries[..examined], cutoff) && examined <= 2 * MAX_FILES
        invariant forall i :: 0 <= i < examined ==> entries[i].proper
        invariant files == old(files) && count == |kept| && total == Total(kept)
      {
        var entry := entries[examined];
        if examined >= 2 * MAX_FILES || !entry.proper {
          Stopped(entries, examined, cutoff);
          files := kept + entries[examined..];
          return Some(if examined >= 2 * MAX_FILES then TooMany else Strange), count, total;
        }
        assert entries[..examined + 1] == entries[..examined] + [entry];
        YoungAppend(entries[..examined], [entry], cutoff);
        if entry.modified >= cutoff {
          TotalAppend(kept, [entry]);
          kept := kept + [entry];
          count := count + 1;
          total := total + entry.size;
        }
      }
      assert entries[..|entries|] == entries && entries + [] == entries;
      ScanSplit(entries, [], cutoff, 2 * MAX_FILES);
      files := kept;
    }
  }

  lemma Stopped(entries: seq<File>, examined: nat, cutoff: int)
    requires examined < |entries| && examined <= 2 * MAX_FILES && forall i :: 0 <= i < examined ==> entries[i].proper
    requires examined == 2 * MAX_FILES || !entries[examined].proper
    ensures Scan(entries, cutoff, 2 * MAX_FILES)
         == Scanned(Young(entries[..examined], cutoff) + entries[examined..], Some(if examined == 2 * MAX_FILES then TooMany else Strange))
  {
    assert entries[..examined] + entries[examined..] == entries;
    ScanSplit(entries[..examined], entries[examined..], cutoff, 2 * MAX_FILES);
  }

  function Run(files: seq<File>, attempts: seq<Attempt>): seq<File>
    decreases |attempts|
  {
    if attempts == [] then files else Run(Send(files, attempts[0]).0, attempts[1..])
  }

  lemma {:induction false} ScanShrinks(files: seq<File>, cutoff: int, budget: nat)
    ensures |Scan(files, cutoff, budget).left| <= |files| && Total(Scan(files, cutoff, budget).left) <= Total(files)
  {
    if files != [] && budget > 0 && files[0].proper {
      ScanShrinks(files[1..], cutoff, budget - 1);
      TotalAppend(Aged(files[0], cutoff), Scan(files[1..], cutoff, budget - 1).left);
    }
  }

  lemma SendKeepsBounded(files: seq<File>, a: Attempt)
    requires Bounded(files)
    ensures Bounded(Send(files, a).0)
  {
    var left := Scan(files, a.now - RETENTION, 2 * MAX_FILES).left;
    ScanShrinks(files, a.now - RETENTION, 2 * MAX_FILES);
    TotalAppend(left, [File(a.name, a.now, a.size, true)]);
    if a.ending.Dies? {
      TotalAppend(left, [File(a.name, a.now, Min(a.ending.stored, a.size), true)]);
    }
  }

  /** Any sequence of sends, expiries, failures and crashes keeps at most 96 files and 96
      times 65536 bytes, and the scan never meets its 192-entry guard. */
  lemma {:induction false} SpoolStaysBounded(files: seq<File>, attempts: seq<Attempt>, next: Attempt)
    requires Bounded(files)
    ensures Bounded(Run(files, attempts)) && !Send(Run(files, attempts), next).1.TooMany?
    decreases |attempts|
  {
    if attempts == [] {
      GuardIsFar(files, next.now - RETENTION, 2 * MAX_FILES);
    } else {
      SendKeepsBounded(files, attempts[0]);
      SpoolStaysBounded(Send(files, attempts[0]).0, attempts[1..], next);
    }
  }

  lemma {:induction false} GuardIsFar(files: seq<File>, cutoff: int, budget: nat)
    requires |files| <= budget
    ensures Scan(files, cutoff, budget).fault != Some(TooMany)
    ensures Scan(files, cutoff, budget).fault.Some? ==> Scan(files, cutoff, budget).fault.value.Strange?
  {
    if files != [] && files[0].proper {
      GuardIsFar(files[1..], cutoff, budget - 1);
    }
  }

  /** A file is removed only once it is older than the retention time, and not by a send
      that stops before it. */
  lemma OnlyOldFilesGo(files: seq<File>, a: Attempt, i: nat)
    requires i < |files| && (files[i].modified >= a.now - RETENTION || !files[i].proper)
    ensures files[i] in Send(files, a).0
  {
    ScanKeeps(files, a.now - RETENTION, 2 * MAX_FILES, i);
  }

  lemma {:induction false} ScanKeeps(files: seq<File>, cutoff: int, budget: nat, i: nat)
    requires i < |files| && (files[i].modified >= cutoff || !files[i].proper)
    ensures files[i] in Scan(files, cutoff, budget).left
  {
    if i > 0 && budget > 0 && files[0].proper {
      ScanKeeps(files[1..], cutoff, budget - 1, i - 1);
    }
  }

  /** A full spool recovers: once every file is old, the next send goes through. */
  lemma FullSpoolRecovers(files: seq<File>, a: Attempt)
    requires |files| <= 2 * MAX_FILES && a.size <= MAX_FILES * MAX_FILE && a.ending.Completes?
    requires forall i :: 0 <= i < |files| ==> files[i].proper && files[i].modified < a.now - RETENTION
    ensures Send(files, a) == ([File(a.name, a.now, a.size, true)], Sent)
  {
    AllGo(files, a.now - RETENTION, 2 * MAX_FILES);
    var file := File(a.name, a.now, a.size, true);
    assert !Named([], a.name) && Total([]) == 0 && [] + [file] == [file];
  }

  lemma {:induction false} AllGo(files: seq<File>, cutoff: int, budget: nat)
    requires |files| <= budget && forall i :: 0 <= i < |files| ==> files[i].proper && files[i].modified < cutoff
    ensures Scan(files, cutoff, budget) == Scanned([], None)
  {
    if files != [] {
      AllGo(files[1..], cutoff, budget - 1);
    }
  }

  lemma {:induction false} ProperFilesAge(files: seq<File>, cutoff: int, budget: nat)
    requires |files| <= budget && forall i :: 0 <= i < |files| ==> files[i].proper
    ensures Scan(files, cutoff, budget) == Scanned(Young(files, cutoff), None)
  {
    if files != [] {
      ProperFilesAge(files[1..], cutoff, budget - 1);
    }
  }

  lemma {:induction false} YoungExactly(files: seq<File>, cutoff: int, file: File)
    ensures file in Young(files, cutoff) <==> file in files && file.modified >= cutoff
  {
    if files != [] {
      YoungExactly(files[1..], cutoff, file);
    }
  }

  /** What one send does to a spool of the user's own mail files: the old ones go, and the new
      one comes exactly if there is room for it and its name is not taken; whole, unless its
      writer fails or dies. */
  lemma SendExactly(files: seq<File>, a: Attempt, file: File)
    requires |files| <= 2 * MAX_FILES && forall i :: 0 <= i < |files| ==> files[i].proper
    ensures var (left, outcome) := Send(files, a);
            var young := Young(files, a.now - 600);
            var roomy := |young| < 96 && Total(young) + a.size <= 96 * 65536;
            var taken := exists i :: 0 <= i < |young| && young[i].name == a.name;
            && (outcome.Full? <==> !roomy)
            && (outcome.Exists? <==> roomy && taken)
            && (outcome.Sent? <==> roomy && !taken && a.ending.Completes?)
            && (outcome.Died? <==> roomy && !taken && a.ending.Dies?)
            && left == young + (if outcome.Sent? then [File(a.name, a.now, a.size, true)]
                                else if outcome.Died? then [File(a.name, a.now, Min(a.ending.stored, a.size), true)] else [])
            && (file in young <==> file in files && file.modified >= a.now - 600)
  {
    ProperFilesAge(files, a.now - RETENTION, 2 * MAX_FILES);
    YoungExactly(files, a.now - RETENTION, file);
  }
}
