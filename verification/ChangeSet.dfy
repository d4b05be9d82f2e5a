/**
 What a pull request publishes: for each path under a directory, what the thread's last write left
 there. It is meant to be the directory after replaying the recorded writes into an empty
 file system; `FilesAreTheDirectory` says that it is, and digests stand for exactly that.
 */
module ChangeSet {
  import opened Wrappers
  import opened CanonicalJson

  /** A recorded workspace operation; one that is not a complete file write is skipped. */
  datatype Operation = FileWrite(path: Option<Text>, content: Option<Text>) | OtherOperation

  datatype File = File(path: Text, content: Text)

  datatype Resolved = Changes(digest: Digest, files: seq<File>) | Problem(code: string)

  const MAX_FILES := 100
  const MAX_BYTES := 1024 * 1024
  const PATH: Text := [0x70, 0x61, 0x74, 0x68]
  const CONTENT: Text := [0x63, 0x6F, 0x6E, 0x74, 0x65, 0x6E, 0x74]

  predicate Writes(op: Operation, directory: Text) {
    op.FileWrite? && op.content.Some? && op.path.Some? && directory + [SLASH] <= op.path.value
  }

  /** The path relative to the directory. */
  function Relative(op: Operation, directory: Text): Text
    requires Writes(op, directory)
  {
    op.path.value[|directory| + 1..]
  }

  /** A map entry set: an entry already there keeps its place. */
  function Set(entries: seq<Member>, key: Text, value: Json): seq<Member> {
    if entries == [] then [Member(key, value)]
    else if entries[0].key == key then [Member(key, value)] + entries[1..]
    else [entries[0]] + Set(entries[1..], key, value)
  }

  function Entries(rows: seq<Operation>, directory: Text): seq<Member> {
    if rows == [] then []
    else
      var before := Entries(rows[..|rows| - 1], directory);
      var op := rows[|rows| - 1];
      if Writes(op, directory) then Set(before, Relative(op, directory), Str(op.content.value)) else before
  }

  function FilesOf(entries: seq<Member>): seq<File> {
    if entries == [] then []
    else [File(entries[0].key, if entries[0].value.Str? then entries[0].value.s else [])] + FilesOf(entries[1..])
  }

  /** Bytes of a text in UTF-8, a lone surrogate counted as U+FFFD. */
  function Utf8Length(s: Text): nat {
    if s == [] then 0
    else if |s| >= 2 && High(s[0]) && Low(s[1]) then 4 + Utf8Length(s[2..])
    else (if s[0] < 0x80 then 1 else if s[0] < 0x800 then 2 else 3) + Utf8Length(s[1..])
  }

  // UTF-8 (RFC 3629): one to four bytes per code point.

  function Utf8Of(c: nat): seq<nat> {
    if c < 0x80 then [c]
    else if c < 0x800 then [0xC0 + c / 0x40, 0x80 + c % 0x40]
    else if c < 0x1_0000 then [0xE0 + c / 0x1000, 0x80 + c / 0x40 % 0x40, 0x80 + c % 0x40]
    else [0xF0 + c / 0x4_0000, 0x80 + c / 0x1000 % 0x40, 0x80 + c / 0x40 % 0x40, 0x80 + c % 0x40]
  }

  /** A pair of surrogates is one code point, a lone one is replaced. */
  function Utf8(s: Text): seq<nat> {
    if s == [] then []
    else if |s| >= 2 && High(s[0]) && Low(s[1])
    then
      var high: int, low: int := s[0], s[1];
      Utf8Of(0x1_0000 + (high - 0xD800) * 0x400 + (low - 0xDC00)) + Utf8(s[2..])
    else Utf8Of(if High(s[0]) || Low(s[0]) then 0xFFFD else s[0]) + Utf8(s[1..])
  }

  lemma {:induction false} LengthIsUtf8(s: Text)
    ensures Utf8Length(s) == |Utf8(s)|
  {
    if |s| >= 2 && High(s[0]) && Low(s[1]) { LengthIsUtf8(s[2..]); } else if s != [] { LengthIsUtf8(s[1..]); }
  }

  function AllContent(files: seq<File>): seq<nat> {
    if files == [] then [] else Utf8(files[0].content) + AllContent(files[1..])
  }

  lemma {:induction false} BytesAreUtf8(files: seq<File>)
    ensures Bytes(files) == |AllContent(files)|
  {
    if files != [] {
      LengthIsUtf8(files[0].content);
      BytesAreUtf8(files[1..]);
    }
  }

  /** A change set resolves exactly if it has files, at most a hundred, and at most a mebibyte of content in UTF-8. */
  lemma ResolvesWithinLimits(rows: seq<Operation>, directory: Text)
    ensures var files := Files(rows, directory);
            match Resolve(rows, directory)
            case Changes(digest, resolved) =>
              resolved == files && digest == DigestOf(Payload(files)) && 0 < |files| <= 100 && |AllContent(files)| <= 1024 * 1024
            case Problem(code) =>
              if files == [] then code == "CHANGE_SET_EMPTY"
              else code == "CHANGE_SET_TOO_LARGE" && (|files| > 100 || |AllContent(files)| > 1024 * 1024)
  {
    BytesAreUtf8(Files(rows, directory));
  }

  function Bytes(files: seq<File>): nat {
    if files == [] then 0 else Utf8Length(files[0].content) + Bytes(files[1..])
  }

  function FileValue(file: File): Json {
    Object([Member(PATH, Str(file.path)), Member(CONTENT, Str(file.content))])
  }

  /** What is digested of a file: its path under "path", its content under "content", and nothing else. */
  lemma FilesAreDigestedAs(file: File, m: Member)
    ensures m in FileValue(file).members <==>
            m == Member([0x70, 0x61, 0x74, 0x68], Str(file.path)) ||
            m == Member([0x63, 0x6F, 0x6E, 0x74, 0x65, 0x6E, 0x74], Str(file.content))
  {}

  function Payload(files: seq<File>): Json {
    Array(seq(|files|, i requires 0 <= i < |files| => FileValue(files[i])))
  }

  function Files(rows: seq<Operation>, directory: Text): seq<File> {
    FilesOf(Sort(Entries(rows, directory)))
  }

  function Resolve(rows: seq<Operation>, directory: Text): Resolved {
    var files := Files(rows, directory);
    if files == [] then Problem("CHANGE_SET_EMPTY")
    else if |files| > MAX_FILES || Bytes(files) > MAX_BYTES then Problem("CHANGE_SET_TOO_LARGE")
    else Changes(DigestOf(Payload(files)), files)
  }

  /** The loop over the recorded rows and the map it fills. */
  method Collect(rows: seq<Operation>, directory: Text) returns (r: Resolved)
    ensures r == Resolve(rows, directory)
  {
    var latest: seq<Member> := [];
    for i := 0 to |rows|
      invariant latest == Entries(rows[..i], directory)
    {
      var op := rows[i];
      assert rows[..i + 1][..i] == rows[..i];
      if !op.FileWrite? || op.content.None? { continue; }
      if op.path.None? || !(directory + [SLASH] <= op.path.value) { continue; }
      latest := Set(latest, op.path.value[|directory| + 1..], Str(op.content.value));
    }
    assert rows[..|rows|] == rows;
    var files := FilesOf(Sort(latest));
    if |files| == 0 { return Problem("CHANGE_SET_EMPTY"); }
    var bytes := 0;
    for k := 0 to |files|
      invariant bytes + Bytes(files[k..]) == Bytes(files)
    {
      bytes := bytes + Utf8Length(files[k].content);
    }
    if |files| > MAX_FILES || bytes > MAX_BYTES { return Problem("CHANGE_SET_TOO_LARGE"); }
    return Changes(DigestOf(Payload(files)), files);
  }

  // ---- The replayed file system -----------------------------------------------------------

  /** The whole workspace after the recorded writes, in order, into nothing. */
  function Replay(rows: seq<Operation>): map<Text, Text> {
    if rows == [] then map[]
    else
      var before := Replay(rows[..|rows| - 1]);
      var op := rows[|rows| - 1];
      if op.FileWrite? && op.path.Some? && op.content.Some? then before[op.path.value := op.content.value] else before
  }

  /** What the directory holds at a relative path. */
  function Holds(rows: seq<Operation>, directory: Text, path: Text): Option<Text> {
    var fs := Replay(rows);
    if directory + [SLASH] + path in fs then Some(fs[directory + [SLASH] + path]) else None
  }

  lemma {:induction false} SetUpdates(entries: seq<Member>, key: Text, value: Json)
    requires DistinctKeys(entries)
    ensures DistinctKeys(Set(entries, key, value))
    ensures forall m :: m in Set(entries, key, value) <==> m == Member(key, value) || (m in entries && m.key != key)
  {
    if entries != [] {
      var rest := entries[1..];
      SetUpdates(rest, key, value);
      assert entries == [entries[0]] + rest;
      if entries[0].key != key {
        var tail := Set(rest, key, value);
        forall j | 0 <= j < |tail| ensures tail[j].key != entries[0].key {
          assert tail[j] in tail;
        }
      }
    }
  }

  lemma RelativePath(path: Text, directory: Text)
    requires directory + [SLASH] <= path
    ensures path == directory + [SLASH] + path[|directory| + 1..]
  {}

  lemma SamePath(directory: Text, p: Text, q: Text)
    ensures directory + [SLASH] + p == directory + [SLASH] + q <==> p == q
  {
    var start := directory + [SLASH];
    assert (start + p)[|start|..] == p && (start + q)[|start|..] == q;
  }

  /** Every entry is what the directory holds, and everything it holds is an entry. */
  lemma {:induction false} EntriesAreTheDirectory(rows: seq<Operation>, directory: Text, m: Member)
    ensures DistinctKeys(Entries(rows, directory))
    ensures m in Entries(rows, directory) <==>
            Holds(rows, directory, m.key).Some? && m.value == Str(Holds(rows, directory, m.key).value)
  {
    if rows != [] {
      var before := rows[..|rows| - 1];
      var op := rows[|rows| - 1];
      EntriesAreTheDirectory(before, directory, m);
      if Writes(op, directory) {
        SetUpdates(Entries(before, directory), Relative(op, directory), Str(op.content.value));
        RelativePath(op.path.value, directory);
        SamePath(directory, m.key, Relative(op, directory));
      }
    }
  }

  // ---- The listing ------------------------------------------------------------------------

  lemma {:induction false} FilesOfAt(entries: seq<Member>)
    ensures |FilesOf(entries)| == |entries|
    ensures forall i | 0 <= i < |entries| :: FilesOf(entries)[i] ==
              File(entries[i].key, if entries[i].value.Str? then entries[i].value.s else [])
  {
    if entries != [] { FilesOfAt(entries[1..]); }
  }

  /** Paths strictly increase, in UTF-16 code-unit order. */
  lemma FilesAscend(rows: seq<Operation>, directory: Text, i: nat, j: nat)
    requires i < j < |Files(rows, directory)|
    ensures Before(Files(rows, directory)[i].path, Files(rows, directory)[j].path)
  {
    EntriesAreTheDirectory(rows, directory, Member([], Null));
    SortAscends(Entries(rows, directory));
    FilesOfAt(Sort(Entries(rows, directory)));
  }

  /** The files are exactly the directory after the replay: each path it holds, with its last content. */
  lemma FilesAreTheDirectory(rows: seq<Operation>, directory: Text, file: File)
    ensures file in Files(rows, directory) <==> Holds(rows, directory, file.path) == Some(file.content)
  {
    var entries := Entries(rows, directory);
    var sorted := Sort(entries);
    SortKeepsMembers(entries);
    FilesOfAt(sorted);
    if file in Files(rows, directory) {
      var i :| 0 <= i < |sorted| && FilesOf(sorted)[i] == file;
      assert sorted[i] in entries;
      EntriesAreTheDirectory(rows, directory, sorted[i]);
    }
    if Holds(rows, directory, file.path) == Some(file.content) {
      var m := Member(file.path, Str(file.content));
      EntriesAreTheDirectory(rows, directory, m);
      assert m in sorted;
      var i :| 0 <= i < |sorted| && sorted[i] == m;
      assert FilesOf(sorted)[i] == file;
    }
  }

  lemma SortedEntriesAgree(rows: seq<Operation>, other: seq<Operation>, directory: Text)
    requires forall path :: Holds(rows, directory, path) == Holds(other, directory, path)
    ensures Sort(Entries(rows, directory)) == Sort(Entries(other, directory))
  {
    var a, b := Entries(rows, directory), Entries(other, directory);
    forall m ensures m in a <==> m in b {
      EntriesAreTheDirectory(rows, directory, m);
      EntriesAreTheDirectory(other, directory, m);
    }
    EntriesAreTheDirectory(rows, directory, Member([], Null));
    EntriesAreTheDirectory(other, directory, Member([], Null));
    SortKeepsMembers(a);
    SortKeepsMembers(b);
    SortAscends(a);
    SortAscends(b);
    AscendingIsUnique(Sort(a), Sort(b));
  }

  /** Histories that leave the same files in the directory resolve alike, limits and digest included. */
  lemma SameFilesSameChangeSet(rows: seq<Operation>, other: seq<Operation>, directory: Text)
    requires forall path :: Holds(rows, directory, path) == Holds(other, directory, path)
    ensures Resolve(rows, directory) == Resolve(other, directory)
  {
    SortedEntriesAgree(rows, other, directory);
  }

  lemma SameFileValues(a: File, b: File)
    ensures Proper(FileValue(a))
    ensures Same(FileValue(a), FileValue(b)) ==> a == b
  {
    var left, right := FileValue(a).members, FileValue(b).members;
    assert left[0] in left && left[1] in left && right[0] in right && right[1] in right;
    assert PATH != CONTENT;
    if Same(FileValue(a), FileValue(b)) {
      assert Same(left[0].value, right[0].value) && Same(left[1].value, right[1].value);
    }
  }

  /** Equal digests are equal change sets: what was approved is what is published. */
  lemma EqualDigestsEqualFiles(a: seq<File>, b: seq<File>)
    ensures DigestOf(Payload(a)) == DigestOf(Payload(b)) <==> a == b
  {
    forall i | 0 <= i < |a| ensures Proper(Payload(a).items[i]) { SameFileValues(a[i], a[i]); }
    forall i | 0 <= i < |b| ensures Proper(Payload(b).items[i]) { SameFileValues(b[i], b[i]); }
    EqualDigestsAreSame(Payload(a), Payload(b));
    if Same(Payload(a), Payload(b)) {
      forall i | 0 <= i < |a| ensures a[i] == b[i] {
        assert Same(Payload(a).items[i], Payload(b).items[i]);
        SameFileValues(a[i], b[i]);
      }
    }
  }
}
