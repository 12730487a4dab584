/** The run journal of a campaign: an append-only file of records, and the ledger read from it. */
module Journal {
  import opened Text

  // ---- Records ----

  datatype Failure = NoFailure | Transport | Product | Infrastructure | Scoring

  /** A judgement; how it is computed from an answer is not part of this model. */
  datatype Score = Unscored | Score(grade: int)

  /** Effort numbers that a transcript carries and regrading copies. */
  datatype Effort = Effort(turns: int, cost: int, toolCalls: int, delegated: int, filesRead: int)

  datatype Transcript = Transcript(
    output: string, formText: string,       // never written to the journal
    agentError: string, maxTurns: bool, rawPath: string, effort: Effort, tokens: int)

  datatype Record = Record(
    campaign: string, task: string, repo: string, arm: string, rep: int, development: bool,
    score: Score, transcript: Transcript, failure: Failure, message: string)

  datatype Key = Key(task: string, arm: string, rep: int)

  function KeyOf(r: Record): Key { Key(r.task, r.arm, r.rep) }

  /** The run never produced an answer: the one case in which a resume runs it again. */
  predicate Unattempted(r: Record) { r.failure.Product? && r.transcript.rawPath == "" }

  /** What of a record reaches the file. */
  function Stored(r: Record): Record
  {
    r.(transcript := r.transcript.(output := "", formText := ""))
  }

  function StoredAll(rs: seq<Record>): (s: seq<Record>)
    ensures |s| == |rs| && forall k :: 0 <= k < |rs| ==> s[k] == Stored(rs[k])
  {
    seq(|rs|, k requires 0 <= k < |rs| => Stored(rs[k]))
  }

  // ---- The newest record of each key ----

  /** Nothing behind i has its key. */
  predicate Newest(rs: seq<Record>, i: nat)
    requires i < |rs|
  {
    forall j :: i < j < |rs| ==> KeyOf(rs[j]) != KeyOf(rs[i])
  }

  /** The newest records among those before n, judged in all of rs, in journal order. */
  function NewestBefore(rs: seq<Record>, n: nat): seq<Record>
    requires n <= |rs|
    decreases n
  {
    if n == 0 then []
    else NewestBefore(rs, n - 1) + if Newest(rs, n - 1) then [rs[n - 1]] else []
  }

  /** Records: one per run, the newest. */
  function Latest(rs: seq<Record>): seq<Record> { NewestBefore(rs, |rs|) }

  /** The newest record of a key, if it has one. */
  function NewestOf(rs: seq<Record>, k: Key): Option<Record>
    decreases |rs|
  {
    if rs == [] then None
    else if KeyOf(rs[|rs| - 1]) == k then Some(rs[|rs| - 1])
    else NewestOf(rs[..|rs| - 1], k)
  }

  predicate IsDone(rs: seq<Record>, k: Key)
  {
    NewestOf(rs, k).Some? && !Unattempted(NewestOf(rs, k).value)
  }

  lemma {:induction false} NewestIsThere(rs: seq<Record>, k: Key)
    ensures NewestOf(rs, k).None? <==> forall i :: 0 <= i < |rs| ==> KeyOf(rs[i]) != k
    ensures NewestOf(rs, k).Some? ==>
              exists i :: 0 <= i < |rs| && rs[i] == NewestOf(rs, k).value && KeyOf(rs[i]) == k && Newest(rs, i)
    decreases |rs|
  {
    if rs != [] {
      var last := |rs| - 1;
      if KeyOf(rs[last]) == k {
        assert Newest(rs, last);
      } else {
        NewestIsThere(rs[..last], k);
        if NewestOf(rs, k).Some? {
          var i :| 0 <= i < last && rs[..last][i] == NewestOf(rs, k).value && KeyOf(rs[i]) == k && Newest(rs[..last], i);
          assert Newest(rs, i) by {
            forall j | i < j < |rs| ensures KeyOf(rs[j]) != KeyOf(rs[i]) {
              if j < last { assert rs[..last][j] == rs[j]; }
            }
          }
        }
      }
    }
  }

  lemma {:induction false} NewestIs(led: seq<Record>, i: nat)
    requires i < |led| && Newest(led, i)
    ensures NewestOf(led, KeyOf(led[i])) == Some(led[i])
    decreases |led|
  {
    var last := |led| - 1;
    if i < last {
      NewestIs(led[..last], i);
    }
  }

  /** The newest record of this key is there, and not of an agent that failed without leaving a stream. */
  predicate DoneAt(rs: seq<Record>, k: Key, i: nat)
  {
    && i < |rs| && KeyOf(rs[i]) == k && Newest(rs, i)
    && !(rs[i].failure.Product? && rs[i].transcript.rawPath == "")
  }

  lemma DoneExactly(rs: seq<Record>, k: Key)
    ensures IsDone(rs, k) <==> exists i: nat :: DoneAt(rs, k, i)
  {
    NewestIsThere(rs, k);
    if IsDone(rs, k) {
      var i :| 0 <= i < |rs| && rs[i] == NewestOf(rs, k).value && KeyOf(rs[i]) == k && Newest(rs, i);
      assert DoneAt(rs, k, i);
    }
    if i: nat :| DoneAt(rs, k, i) {
      NewestIs(rs, i);
    }
  }

  /** x is a newest record among those before n. */
  ghost predicate NewestAmong(rs: seq<Record>, n: nat, x: Record)
    requires n <= |rs|
  {
    exists i :: 0 <= i < n && rs[i] == x && Newest(rs, i)
  }

  lemma {:induction false} NewestMembers(rs: seq<Record>, n: nat)
    requires n <= |rs|
    ensures forall x :: x in NewestBefore(rs, n) <==> NewestAmong(rs, n, x)
    decreases n
  {
    if n > 0 {
      NewestMembers(rs, n - 1);
      forall x ensures NewestAmong(rs, n, x) <==> NewestAmong(rs, n - 1, x) || (x == rs[n - 1] && Newest(rs, n - 1)) {
      }
    }
  }

  /** Records holds one record per key. */
  lemma {:induction false} OnePerKey(rs: seq<Record>, n: nat)
    requires n <= |rs|
    ensures forall a, b :: 0 <= a < b < |NewestBefore(rs, n)| ==>
              KeyOf(NewestBefore(rs, n)[a]) != KeyOf(NewestBefore(rs, n)[b])
    decreases n
  {
    if n > 0 {
      OnePerKey(rs, n - 1);
      NewestMembers(rs, n - 1);
      var before := NewestBefore(rs, n - 1);
      forall a | 0 <= a < |before| && Newest(rs, n - 1) ensures KeyOf(before[a]) != KeyOf(rs[n - 1]) {
        assert NewestAmong(rs, n - 1, before[a]);
      }
    }
  }

  /** The newest record of every key is the same in Records as in the journal. */
  lemma LatestKeepsNewest(rs: seq<Record>, k: Key)
    ensures NewestOf(Latest(rs), k) == NewestOf(rs, k)
  {
    var ls := Latest(rs);
    NewestIsThere(rs, k);
    NewestIsThere(ls, k);
    NewestMembers(rs, |rs|);
    OnePerKey(rs, |rs|);
    if NewestOf(rs, k).Some? {
      var j :| 0 <= j < |rs| && rs[j] == NewestOf(rs, k).value && KeyOf(rs[j]) == k && Newest(rs, j);
      assert NewestAmong(rs, |rs|, rs[j]);
      assert rs[j] in ls;
    }
    if NewestOf(ls, k).Some? {
      var a :| 0 <= a < |ls| && ls[a] == NewestOf(ls, k).value && KeyOf(ls[a]) == k && Newest(ls, a);
      assert ls[a] in ls;
      var i :| 0 <= i < |rs| && rs[i] == ls[a] && Newest(rs, i);
      var j :| 0 <= j < |rs| && rs[j] == NewestOf(rs, k).value && KeyOf(rs[j]) == k && Newest(rs, j);
      assert i == j;
    }
  }

  lemma {:induction false} AllNewest(rs: seq<Record>, n: nat)
    requires n <= |rs| && forall i :: 0 <= i < n ==> Newest(rs, i)
    ensures NewestBefore(rs, n) == rs[..n]
    decreases n
  {
    if n > 0 {
      AllNewest(rs, n - 1);
      assert rs[..n] == rs[..n - 1] + [rs[n - 1]];
    }
  }

  /** Taking the newest again changes nothing. */
  lemma LatestIdempotent(rs: seq<Record>)
    ensures Latest(Latest(rs)) == Latest(rs)
  {
    OnePerKey(rs, |rs|);
    var ls := Latest(rs);
    AllNewest(ls, |ls|);
    assert ls[..|ls|] == ls;
  }

  lemma {:induction false} NewestStored(rs: seq<Record>, k: Key)
    ensures NewestOf(StoredAll(rs), k)
            == match NewestOf(rs, k) case Some(r) => Some(Stored(r)) case None => None
    decreases |rs|
  {
    if rs != [] {
      NewestStored(rs[..|rs| - 1], k);
      assert StoredAll(rs)[..|rs| - 1] == StoredAll(rs[..|rs| - 1]);
    }
  }

  /** What the file keeps decides Done. */
  lemma DoneStored(rs: seq<Record>, k: Key)
    ensures IsDone(StoredAll(rs), k) == IsDone(rs, k)
  {
    NewestStored(rs, k);
  }

  lemma NewestStays(rs: seq<Record>, i: nat)
    requires i < |rs|
    ensures Newest(StoredAll(rs), i) == Newest(rs, i)
  {
  }

  lemma StoredMore(rs: seq<Record>, more: seq<Record>)
    ensures StoredAll(rs + more) == StoredAll(rs) + StoredAll(more)
  {
  }

  lemma LastStored(rs: seq<Record>, n: nat)
    requires 0 < n <= |rs| && NewestBefore(StoredAll(rs), n - 1) == StoredAll(NewestBefore(rs, n - 1))
    ensures NewestBefore(StoredAll(rs), n) == StoredAll(NewestBefore(rs, n))
  {
    NewestStays(rs, n - 1);
    if Newest(rs, n - 1) {
      StoredMore(NewestBefore(rs, n - 1), [rs[n - 1]]);
    } else {
      assert NewestBefore(rs, n) == NewestBefore(rs, n - 1);
      assert NewestBefore(StoredAll(rs), n) == NewestBefore(StoredAll(rs), n - 1);
    }
  }

  lemma {:induction false} LatestStored(rs: seq<Record>, n: nat)
    requires n <= |rs|
    ensures NewestBefore(StoredAll(rs), n) == StoredAll(NewestBefore(rs, n))
    decreases n
  {
    if n > 0 {
      LatestStored(rs, n - 1);
      LastStored(rs, n);
    }
  }

  // ---- The file ----

  /** bufio.Scanner's limit here: a line of this many bytes is refused. */
  const MAX_LINE := 4194304

  /** JSON encoding of records and trimming of white space, as far as the journal relies on them. */
  datatype CodingFunctions = CodingFunctions(
    encode: Record -> Option<string>, decode: string -> Option<Record>, trim: string -> string)

  function Prefix(s: string, n: nat): string { if n <= |s| then s[..n] else s }

  function TextOf(c: CodingFunctions, r: Record): string
  {
    match c.encode(r) case Some(s) => s case None => ""
  }

  /** The first n bytes of one record's text with the first k of another's behind them. */
  function Torn(c: CodingFunctions, a: Record, n: nat, b: Record, k: nat): string
  {
    Prefix(TextOf(c, a), n) + Prefix(TextOf(c, b), k)
  }

  /** A record is written as one JSON object on one line, and read back as what the file keeps of
      it. An object ends at its own closing brace: part of one, and one with anything behind it,
      is no record. */
  ghost predicate LawfulCoding(c: CodingFunctions)
  {
    && (forall r {:trigger c.encode(r)} :: c.encode(r).Some? ==>
          var s := c.encode(r).value;
          s != "" && '\n' !in s && c.trim(s) == s && c.decode(s) == Some(Stored(r)))
    && c.trim("") == ""
    && (forall s {:trigger c.decode(s)} :: c.decode(s).Some? ==> Stored(c.decode(s).value) == c.decode(s).value)
    && (forall a, n: nat, b, k: nat {:trigger Torn(c, a, n, b, k)} ::
          0 < n <= |TextOf(c, a)| && k <= |TextOf(c, b)| && (n < |TextOf(c, a)| || k > 0) ==>
            NoRecord(c, Torn(c, a, n, b, k)))
  }

  predicate NoRecord(c: CodingFunctions, s: string) { c.trim(s) != "" && c.decode(c.trim(s)).None? }

  type Coding = c: CodingFunctions | LawfulCoding(c)
    ghost witness CodingFunctions((r: Record) => None, (s: string) => None, (s: string) => s)

  /** The lines of a file; a last one without a line break counts. */
  function Lines(file: string): seq<string>
    decreases |file|
  {
    if file == "" then []
    else
      var k := IndexFrom(file, '\n', 0);
      if k == -1 then [file] else [file[..k]] + Lines(file[k + 1..])
  }

  /** The records on these lines, or None where a line is too long or no record. */
  function Parse(c: Coding, lines: seq<string>): Option<seq<Record>>
    decreases |lines|
  {
    if lines == [] then Some([])
    else match Parse(c, lines[..|lines| - 1])
      case None => None
      case Some(before) => ParseOne(c, before, lines[|lines| - 1])
  }

  function ParseOne(c: Coding, before: seq<Record>, line: string): Option<seq<Record>>
  {
    if |line| >= MAX_LINE then None
    else if c.trim(line) == "" then Some(before)
    else match c.decode(c.trim(line)) case Some(r) => Some(before + [r]) case None => None
  }

  /** The loader gets past this line. */
  predicate Readable(c: Coding, line: string)
  {
    |line| < MAX_LINE && (c.trim(line) == "" || c.decode(c.trim(line)).Some?)
  }

  /** OpenRunJournal on this file. */
  function Load(c: Coding, file: string): Option<seq<Record>> { Parse(c, Lines(file)) }

  /** Nothing, or whole lines. */
  predicate WholeLines(file: string) { file == "" || file[|file| - 1] == '\n' }

  /** What is appended to a whole file starts a line of its own. */
  lemma FrontLine(first: string, a: seq<string>, b: seq<string>)
    ensures [first] + (a + b) == [first] + a + b
  {
  }

  lemma HasBreak(file: string)
    requires WholeLines(file) && file != ""
    ensures IndexFrom(file, '\n', 0) != -1
  {
  }

  lemma RestWhole(file: string, k: nat)
    requires WholeLines(file) && k < |file|
    ensures WholeLines(file[k + 1..])
  {
  }

  lemma LineAndRest(file: string, k: nat)
    requires k < |file| && k == IndexFrom(file, '\n', 0)
    ensures Lines(file) == [file[..k]] + Lines(file[k + 1..])
  {
  }

  /** The first line of a file that has one, and the rest. */
  lemma FirstBreak(file: string) returns (k: nat)
    requires WholeLines(file) && file != ""
    ensures k < |file| && k == IndexFrom(file, '\n', 0) && WholeLines(file[k + 1..])
    ensures Lines(file) == [file[..k]] + Lines(file[k + 1..])
  {
    HasBreak(file);
    k := IndexFrom(file, '\n', 0);
    RestWhole(file, k);
    LineAndRest(file, k);
  }

  lemma {:induction false} LinesJoin(file: string, more: string)
    requires WholeLines(file)
    ensures Lines(file + more) == Lines(file) + Lines(more)
    decreases |file|
  {
    if file == "" {
      assert file + more == more;
    } else {
      var k := FirstBreak(file);
      LinesJoin(file[k + 1..], more);
      FirstLine(file, k, more);
      FrontLine(file[..k], Lines(file[k + 1..]), Lines(more));
    }
  }

  lemma LinesAppend(file: string, s: string)
    requires WholeLines(file) && '\n' !in s
    ensures Lines(file + s + "\n") == Lines(file) + [s]
    ensures s != "" ==> Lines(file + s) == Lines(file) + [s]
  {
    LinesJoin(file, s + "\n");
    LinesJoin(file, s);
    OneLine(s);
    assert file + s + "\n" == file + (s + "\n");
  }

  lemma OneLine(s: string)
    requires '\n' !in s
    ensures Lines(s + "\n") == [s] && (s != "" ==> Lines(s) == [s])
  {
    var all := s + "\n";
    assert all[|s|] == '\n' && forall k :: 0 <= k < |s| ==> all[k] == s[k];
    assert IndexFrom(all, '\n', 0) == |s|;
    assert all[..|s|] == s && all[|s| + 1..] == "";
  }

  lemma FirstLine(file: string, k: nat, more: string)
    requires k < |file| && k == IndexFrom(file, '\n', 0)
    ensures Lines(file + more) == [file[..k]] + Lines(file[k + 1..] + more)
  {
    var all := file + more;
    assert all[k] == '\n' && forall j :: 0 <= j < k ==> all[j] == file[j];
    assert IndexFrom(all, '\n', 0) == k;
    assert all[..k] == file[..k] && all[k + 1..] == file[k + 1..] + more;
  }

  // ---- The journal ----

  /** What reaches the file when this much of a record's line does. */
  function Landed(c: Coding, r: Record, written: nat): string
  {
    match c.encode(r) case Some(s) => Prefix(s + "\n", written) case None => ""
  }

  class RunJournal {
    const c: Coding
    var file: string
    var records: seq<Record>
    var done: map<Key, bool>

    /** The ledger answers from `done` as the records say. */
    ghost predicate Valid()
      reads this
    {
      forall k :: (k in done && done[k]) <==> IsDone(records, k)
    }

    constructor (c: Coding)
      ensures this.c == c && file == "" && records == [] && Valid()
    {
      this.c := c;
      file, records, done := "", [], map[];
    }

    method Note(r: Record)
      requires Valid()
      modifies this`records, this`done
      ensures Valid() && records == old(records) + [r]
    {
      records := records + [r];
      done := done[KeyOf(r) := !Unattempted(r)];
      assert records[..|records| - 1] == old(records);
    }

    /** load and open: read what is there. */
    method Open(disk: string) returns (ok: bool)
      modifies this
      ensures ok == Load(c, disk).Some?
      ensures ok ==> Valid() && file == disk && records == Load(c, disk).value
    {
      file, records, done := disk, [], map[];
      var lines := Lines(disk);
      assert lines[..0] == [];
      for i := 0 to |lines|
        invariant Valid() && file == disk
        invariant Parse(c, lines[..i]) == Some(records)
      {
        var line := lines[i];
        assert lines[..i + 1][..i] == lines[..i] && lines[..i + 1][i] == line;
        if |line| >= MAX_LINE || (c.trim(line) != "" && c.decode(c.trim(line)).None?) {
          ParseStops(c, lines, i + 1);
          return false;
        }
        if c.trim(line) != "" {
          Note(c.decode(c.trim(line)).value);
        }
      }
      assert lines[..|lines|] == lines;
      ok := true;
    }

    /** Emit: one line, then a sync. `written` bytes of the line reach the file. */
    method Emit(r: Record, written: nat, synced: bool) returns (ok: bool)
      requires Valid()
      modifies this`file, this`records, this`done
      ensures Valid()
      ensures ok == (c.encode(r).Some? && written > |c.encode(r).value| && synced)
      ensures records == if ok then old(records) + [r] else old(records)
      ensures file == old(file) + Landed(c, r, written)
    {
      var text := c.encode(r);
      if text.None? {
        return false;
      }
      var line := text.value + "\n";
      if written < |line| {
        file := file + line[..written];
        return false;
      }
      file := file + line;
      if !synced {
        return false;
      }
      Note(r);
      return true;
    }

    /** Done */
    method Done(k: Key) returns (d: bool)
      requires Valid()
      ensures d == IsDone(records, k)
      ensures d <==> exists i: nat :: DoneAt(records, k, i)
    {
      DoneExactly(records, k);
      d := k in done && done[k];
    }

    /** Records */
    method Records() returns (out: seq<Record>)
      ensures out == Latest(records)
    {
      out := LatestRunRecords(records);
    }
  }

  lemma {:induction false} ParseStops(c: Coding, lines: seq<string>, n: nat)
    requires n <= |lines| && Parse(c, lines[..n]).None?
    ensures Parse(c, lines).None?
    decreases |lines|
  {
    if n < |lines| {
      assert lines[..|lines| - 1][..n] == lines[..n];
      ParseStops(c, lines[..|lines| - 1], n);
    } else {
      assert lines[..n] == lines;
    }
  }

  /** latestRunRecords: the last index of each key, then the records at those. */
  method LatestRunRecords(rs: seq<Record>) returns (out: seq<Record>)
    ensures out == Latest(rs)
  {
    var latest: map<Key, nat> := map[];
    for i := 0 to |rs|
      invariant forall j :: 0 <= j < i ==> KeyOf(rs[j]) in latest
      invariant forall k :: k in latest ==> latest[k] < i && KeyOf(rs[latest[k]]) == k
      invariant forall k, j :: k in latest && latest[k] < j < i ==> KeyOf(rs[j]) != k
    {
      latest := latest[KeyOf(rs[i]) := i];
    }
    out := [];
    for i := 0 to |rs|
      invariant out == NewestBefore(rs, i)
    {
      if latest[KeyOf(rs[i])] == i {
        out := out + [rs[i]];
      } else {
        assert !Newest(rs, i);
      }
    }
  }

  // ---- Closing and opening again ----

  /** The file and the records after these emits have all succeeded, one after the other. */
  function FileAfter(c: Coding, file: string, rs: seq<Record>): string
    requires forall k :: 0 <= k < |rs| ==> c.encode(rs[k]).Some?
    decreases |rs|
  {
    if rs == [] then file
    else FileAfter(c, file, rs[..|rs| - 1]) + c.encode(rs[|rs| - 1]).value + "\n"
  }

  predicate Encodable(c: Coding, rs: seq<Record>)
  {
    forall k :: 0 <= k < |rs| ==> c.encode(rs[k]).Some?
  }

  /** The line of this record can be read again. */
  predicate Fits(c: Coding, r: Record) { c.encode(r).Some? && |c.encode(r).value| < MAX_LINE }

  lemma {:induction false} WholeAfter(c: Coding, file: string, rs: seq<Record>)
    requires WholeLines(file) && Encodable(c, rs)
    ensures WholeLines(FileAfter(c, file, rs))
  {
  }

  /** One more line at the end of a whole file. */
  lemma LoadAppend(c: Coding, file: string, line: string)
    requires WholeLines(file) && '\n' !in line
    ensures Load(c, file + line + "\n")
            == match Load(c, file) case Some(before) => ParseOne(c, before, line) case None => None
  {
    LinesAppend(file, line);
    var lines := Lines(file) + [line];
    assert lines[..|lines| - 1] == Lines(file);
  }

  lemma LoadRecord(c: Coding, file: string, r: Record)
    requires WholeLines(file) && c.encode(r).Some?
    ensures Load(c, file + c.encode(r).value + "\n")
            == if Load(c, file).Some? && Fits(c, r) then Some(Load(c, file).value + [Stored(r)]) else None
  {
    LoadAppend(c, file, c.encode(r).value);
  }

  /** Closing and reloading after any sequence of successful emits gives the same records, up to
      the two fields the file never holds, exactly when every line fits the reader. */
  lemma {:induction false} ReloadExactly(c: Coding, file: string, before: seq<Record>, rs: seq<Record>)
    requires WholeLines(file) && Load(c, file) == Some(before) && Encodable(c, rs)
    ensures Load(c, FileAfter(c, file, rs))
            == if AllFit(c, rs) then Some(before + StoredAll(rs)) else None
    decreases |rs|
  {
    if rs == [] {
      assert before + StoredAll(rs) == before;
    } else {
      var front, r := rs[..|rs| - 1], rs[|rs| - 1];
      ReloadExactly(c, file, before, front);
      WholeAfter(c, file, front);
      LoadRecord(c, FileAfter(c, file, front), r);
      AllFitLast(c, rs);
      StoredLast(before, rs);
    }
  }

  lemma StoredLast(before: seq<Record>, rs: seq<Record>)
    requires rs != []
    ensures before + StoredAll(rs) == before + StoredAll(rs[..|rs| - 1]) + [Stored(rs[|rs| - 1])]
  {
    assert StoredAll(rs) == StoredAll(rs[..|rs| - 1]) + [Stored(rs[|rs| - 1])];
  }

  predicate AllFit(c: Coding, rs: seq<Record>)
  {
    forall k :: 0 <= k < |rs| ==> Fits(c, rs[k])
  }

  lemma AllFitLast(c: Coding, rs: seq<Record>)
    requires rs != []
    ensures AllFit(c, rs) <==> AllFit(c, rs[..|rs| - 1]) && Fits(c, rs[|rs| - 1])
  {
    if AllFit(c, rs[..|rs| - 1]) && Fits(c, rs[|rs| - 1]) {
      forall k | 0 <= k < |rs| ensures Fits(c, rs[k]) {
        if k < |rs| - 1 { assert rs[k] == rs[..|rs| - 1][k]; }
      }
    }
  }

  lemma StoredStored(a: seq<Record>, b: seq<Record>)
    requires StoredAll(a) == a
    ensures a + StoredAll(b) == StoredAll(a + b)
  {
    forall k | 0 <= k < |a + b| ensures (a + StoredAll(b))[k] == StoredAll(a + b)[k] {
      if k < |a| {
        assert StoredAll(a)[k] == Stored(a[k]);
      }
    }
  }

  /** So a reopened journal answers Done as before, and its Records are the stored form of those
      before. */
  lemma ReloadAnswers(c: Coding, file: string, before: seq<Record>, rs: seq<Record>, k: Key)
    requires WholeLines(file) && Load(c, file) == Some(before) && StoredAll(before) == before
    requires Encodable(c, rs) && AllFit(c, rs)
    ensures var again := Load(c, FileAfter(c, file, rs));
            && again.Some?
            && IsDone(again.value, k) == IsDone(before + rs, k)
            && Latest(again.value) == StoredAll(Latest(before + rs))
  {
    ReloadExactly(c, file, before, rs);
    StoredStored(before, rs);
    DoneStored(before + rs, k);
    LatestStored(before + rs, |before + rs|);
  }

  // ---- Torn files ----

  /** Where the last line starts: behind the last line break. */
  function LastLine(file: string): (k: nat)
    ensures k <= |file| && WholeLines(file[..k]) && '\n' !in file[k..]
    decreases |file|
  {
    if WholeLines(file) then |file|
    else
      var k := LastLine(file[..|file| - 1]);
      assert file[..|file| - 1][..k] == file[..k];
      assert file[k..] == file[..|file| - 1][k..] + [file[|file| - 1]];
      k
  }

  /** The whole lines of a file, and the text behind them. */
  function Body(file: string): string { file[..LastLine(file)] }

  function Tail(file: string): string { file[LastLine(file)..] }

  lemma BodyTail(file: string)
    ensures Body(file) + Tail(file) == file && WholeLines(Body(file)) && '\n' !in Tail(file)
    ensures WholeLines(file) <==> Tail(file) == ""
  {
  }

  /** Text at the end of a whole file that has no line break. */
  lemma LoadTail(c: Coding, file: string, s: string)
    requires WholeLines(file) && '\n' !in s
    ensures Load(c, file + s)
            == if s == "" then Load(c, file)
               else match Load(c, file) case Some(before) => ParseOne(c, before, s) case None => None
  {
    LinesAppend(file, s);
    if s == "" {
      assert file + s == file;
    } else {
      var lines := Lines(file) + [s];
      assert lines[..|lines| - 1] == Lines(file);
    }
  }

  lemma BodyLoads(c: Coding, file: string)
    requires Load(c, file).Some?
    ensures Load(c, Body(file)).Some?
  {
    BodyTail(file);
    LoadTail(c, Body(file), Tail(file));
  }

  /** What a record appended to any file that loads comes to: its line is joined to the text behind
      the last line break, and the file loads again if and only if there is none such or the two
      read as one line. */
  lemma AppendReloads(c: Coding, file: string, r: Record)
    requires Load(c, file).Some? && Fits(c, r)
    ensures var s := c.encode(r).value;
            && Load(c, Body(file)).Some?
            && (Load(c, file + s + "\n").Some? <==> WholeLines(file) || Readable(c, Tail(file) + s))
            && Load(c, file + s + "\n") == ParseOne(c, Load(c, Body(file)).value, Tail(file) + s)
            && (WholeLines(file) ==> Load(c, file + s + "\n") == Some(Load(c, file).value + [Stored(r)]))
  {
    var s := c.encode(r).value;
    BodyLoads(c, file);
    BodyTail(file);
    LoadBehind(c, file, Body(file), Tail(file), s);
    if WholeLines(file) {
      LoadRecord(c, file, r);
    }
  }

  lemma LoadBehind(c: Coding, file: string, body: string, tail: string, s: string)
    requires file == body + tail && WholeLines(body) && '\n' !in tail && '\n' !in s && Load(c, body).Some?
    ensures Load(c, file + s + "\n") == ParseOne(c, Load(c, body).value, tail + s)
  {
    assert file + s == body + (tail + s);
    LoadAppend(c, body, tail + s);
  }

  /** A journal cut at any point of the line that was being written: it loads if and only if the
      line had not begun, or all of it was there (but perhaps the line break) and it fits the
      reader. */
  lemma CutLoads(c: Coding, file: string, r: Record, n: nat)
    requires WholeLines(file) && Load(c, file).Some? && c.encode(r).Some? && n <= |c.encode(r).value| + 1
    ensures Load(c, file + Landed(c, r, n))
            == if n == 0 then Load(c, file)
               else if n >= |c.encode(r).value| && Fits(c, r) then Some(Load(c, file).value + [Stored(r)])
               else None
  {
    var s := c.encode(r).value;
    if n <= |s| {
      assert (s + "\n")[..n] == s[..n];
      assert s[..|s|] == s;
      LoadTail(c, file, s[..n]);
      if 0 < n < |s| {
        assert Torn(c, r, n, r, 0) == s[..n];
      }
    } else {
      assert (s + "\n")[..n] == s + "\n";
      LoadRecord(c, file, r);
      assert file + (s + "\n") == file + s + "\n";
    }
  }

  /** A file that ends in a record without its line break. */
  ghost predicate Dangling(c: Coding, file: string)
  {
    exists g, r :: DanglingAs(c, file, g, r)
  }

  ghost predicate DanglingAs(c: Coding, file: string, g: string, r: Record)
  {
    WholeLines(g) && Fits(c, r) && file == g + c.encode(r).value
  }

  /** A file that has lost a bad line to its whole lines never loads again. */
  lemma NeverAgain(c: Coding, file: string, more: string)
    requires WholeLines(file) && Load(c, file).None?
    ensures Load(c, file + more).None?
  {
    LinesJoin(file, more);
    var lines := Lines(file) + Lines(more);
    assert lines[..|Lines(file)|] == Lines(file);
    ParseStops(c, lines, |Lines(file)|);
  }

  lemma PartOnDangling(c: Coding, g: string, a: Record, r: Record, k: nat)
    requires WholeLines(g) && c.encode(a).Some? && c.encode(r).Some? && 0 < k <= |c.encode(r).value|
    ensures Load(c, g + (c.encode(a).value + c.encode(r).value[..k])).None?
  {
    var s, u := c.encode(a).value, c.encode(r).value;
    assert s[..|s|] == s;
    assert Torn(c, a, |s|, r, k) == s + u[..k];
    LoadTail(c, g, s + u[..k]);
  }

  lemma LineOnDangling(c: Coding, g: string, a: Record, r: Record)
    requires WholeLines(g) && c.encode(a).Some? && c.encode(r).Some?
    ensures Load(c, g + (c.encode(a).value + c.encode(r).value) + "\n").None?
  {
    var s, u := c.encode(a).value, c.encode(r).value;
    assert s[..|s|] == s && u[..|u|] == u;
    assert Torn(c, a, |s|, r, |u|) == s + u;
    LoadAppend(c, g, s + u);
  }

  /** The next record, or any part of it, makes a file that ends in a record without its line break
      unreadable for good. */
  lemma TornLine(c: Coding, file: string, r: Record, written: nat, more: string)
    requires Dangling(c, file) && c.encode(r).Some?
    requires written > 0 && (written <= |c.encode(r).value| ==> more == "")
    ensures Load(c, file + Landed(c, r, written) + more).None?
  {
    var g, a :| DanglingAs(c, file, g, a);
    var s, u := c.encode(a).value, c.encode(r).value;
    if written <= |u| {
      PartOnDangling(c, g, a, r, written);
      PartText(c, g, s, r, written);
    } else {
      LineOnDangling(c, g, a, r);
      NeverAgain(c, g + (s + u) + "\n", more);
      LineText(c, g, s, r, written);
    }
  }

  lemma PartText(c: Coding, g: string, s: string, r: Record, written: nat)
    requires c.encode(r).Some? && written <= |c.encode(r).value|
    ensures g + s + Landed(c, r, written) + "" == g + (s + c.encode(r).value[..written])
  {
    var u := c.encode(r).value;
    assert (u + "\n")[..written] == u[..written];
  }

  lemma LineText(c: Coding, g: string, s: string, r: Record, written: nat)
    requires c.encode(r).Some? && written > |c.encode(r).value|
    ensures g + s + Landed(c, r, written) == g + (s + c.encode(r).value) + "\n"
  {
    assert Landed(c, r, written) == c.encode(r).value + "\n";
  }
}
