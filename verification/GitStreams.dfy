/**
 The NUL-delimited diff streams of flowgency/git_evidence/capture.py: parsing what
 `git diff --raw -z` and `git diff --numstat -z` print gives back exactly the
 changes that were printed, renames and odd paths included.
 */
module GitStreams {
  import opened Wrappers

  type Byte = b: int | 0 <= b < 256

  type Bytes = seq<Byte>

  const NUL: Byte := 0
  const TAB: Byte := 9
  const SPACE: Byte := 32
  const COLON: Byte := 58

  datatype Status = Added | Modified | Deleted | Renamed | TypeChanged

  datatype RawRecord = RawRecord(
    oldMode: Bytes, newMode: Bytes, oldId: Bytes, newId: Bytes,
    status: Status, oldPath: Option<Bytes>, newPath: Bytes)

  function StatusLetter(status: Status): Byte {
    match status
    case Added => 65
    case Modified => 77
    case Deleted => 68
    case Renamed => 82
    case TypeChanged => 84
  }

  /** The first byte of the status field; a similarity score may follow it. */
  function StatusNamed(field: Bytes): Option<Status> {
    if field == [] then None
    else match field[0]
      case 65 => Some(Added)
      case 77 => Some(Modified)
      case 68 => Some(Deleted)
      case 82 => Some(Renamed)
      case 84 => Some(TypeChanged)
      case _ => None
  }

  // ---- Splitting ---------------------------------------------------------

  function Split(data: Bytes, sep: Byte): (parts: seq<Bytes>)
    ensures parts != []
  {
    if data == [] then [[]]
    else
      var rest := Split(data[1..], sep);
      if data[0] == sep then [[]] + rest else [[data[0]] + rest[0]] + rest[1..]
  }

  lemma {:induction false} SplitAt(a: Bytes, sep: Byte, rest: Bytes)
    requires sep !in a
    ensures Split(a + [sep] + rest, sep) == [a] + Split(rest, sep)
  {
    var data := a + [sep] + rest;
    if a == [] {
      assert data[1..] == rest;
    } else {
      SplitAt(a[1..], sep, rest);
      assert data[1..] == a[1..] + [sep] + rest;
      assert a == [a[0]] + a[1..];
    }
  }

  lemma {:induction false} SplitWhole(a: Bytes, sep: Byte)
    requires sep !in a
    ensures Split(a, sep) == [a]
  {
    if a != [] {
      SplitWhole(a[1..], sep);
      assert a == [a[0]] + a[1..];
    }
  }

  function Terminated(fields: seq<Bytes>): Bytes {
    if fields == [] then [] else fields[0] + [NUL] + Terminated(fields[1..])
  }

  lemma {:induction false} SplitTerminated(fields: seq<Bytes>)
    requires forall f :: f in fields ==> NUL !in f
    ensures Split(Terminated(fields), NUL) == fields + [[]]
  {
    if fields != [] {
      SplitTerminated(fields[1..]);
      SplitAt(fields[0], NUL, Terminated(fields[1..]));
      assert fields == [fields[0]] + fields[1..];
    }
  }

  // ---- Parsing -----------------------------------------------------------

  /** The first record of `parts`, with the number of parts it takes; `None` is
      the unsupported-change error. */
  function FirstRecord(parts: seq<Bytes>): (r: Option<(RawRecord, nat)>)
    requires parts != []
    ensures r.Some? ==> 1 < r.value.1 <= |parts|
  {
    var item := parts[0];
    if item == [] || item[0] != COLON then None
    else
      var fields := Split(item[1..], SPACE);
      if |fields| != 5 then None
      else
        var status := StatusNamed(fields[4]);
        if status.None? || |parts| < 2 then None
        else if !status.value.Renamed? then
          Some((RawRecord(fields[0], fields[1], fields[2], fields[3], status.value, None, parts[1]), 2))
        else if |parts| < 3 then None
        else Some((RawRecord(fields[0], fields[1], fields[2], fields[3], Renamed, Some(parts[1]), parts[2]), 3))
  }

  function RawRecords(parts: seq<Bytes>): Option<seq<RawRecord>> {
    if parts == [] then Some([])
    else if parts[0] == [] then RawRecords(parts[1..])
    else
      var first := FirstRecord(parts);
      if first.None? then None
      else
        var rest := RawRecords(parts[first.value.1..]);
        if rest.None? then None else Some([first.value.0] + rest.value)
  }

  ghost function Prepend<T>(done: seq<T>, rest: Option<seq<T>>): Option<seq<T>> {
    if rest.None? then None else Some(done + rest.value)
  }

  lemma PrependOne<T>(done: seq<T>, x: T, rest: Option<seq<T>>)
    ensures Prepend([], rest) == rest && Prepend(done, Some([])) == Some(done)
    ensures Prepend(done, Prepend([x], rest)) == Prepend(done + [x], rest)
  {
    assert done + [] == done;
    if rest.Some? {
      assert [] + rest.value == rest.value;
      assert done + ([x] + rest.value) == done + [x] + rest.value;
    }
  }

  method ParseRaw(data: Bytes) returns (result: Option<seq<RawRecord>>)
    ensures result == RawRecords(Split(data, NUL))
  {
    var parts := Split(data, NUL);
    var records, index := [], 0;
    assert parts[0..] == parts;
    PrependOne([], RawRecord([], [], [], [], Added, None, []), RawRecords(parts));
    while index < |parts|
      invariant 0 <= index <= |parts|
      invariant RawRecords(parts) == Prepend(records, RawRecords(parts[index..]))
    {
      var item, at := parts[index], index;
      index := index + 1;
      assert parts[at..][1..] == parts[index..];
      if item == [] {
        continue;
      }
      if item[0] != COLON {
        return None;
      }
      var fields := Split(item[1..], SPACE);
      if |fields| != 5 {
        return None;
      }
      var status := StatusNamed(fields[4]);
      if status.None? {
        return None;
      }
      if index >= |parts| {
        return None;
      }
      var first := parts[index];
      index := index + 1;
      var oldPath, newPath := None, first;
      if status.value.Renamed? {
        if index >= |parts| {
          return None;
        }
        oldPath := Some(first);
        newPath := parts[index];
        index := index + 1;
      }
      var record := RawRecord(fields[0], fields[1], fields[2], fields[3], status.value, oldPath, newPath);
      assert FirstRecord(parts[at..]) == Some((record, index - at));
      assert parts[at..][index - at..] == parts[index..];
      PrependOne(records, record, RawRecords(parts[index..]));
      records := records + [record];
    }
    PrependOne(records, RawRecord([], [], [], [], Added, None, []), Some([]));
    return Some(records);
  }

  /** `head.split(b"\\t", 2)` when it has three fields. */
  function TabPosition(data: Bytes): (i: nat)
    ensures i <= |data| && (forall n :: 0 <= n < i ==> data[n] != TAB) && (i < |data| ==> data[i] == TAB)
  {
    if data == [] || data[0] == TAB then 0 else 1 + TabPosition(data[1..])
  }

  function Counts(head: Bytes): Option<(Bytes, Bytes)> {
    var i := TabPosition(head);
    if i == |head| then None
    else
      var j := TabPosition(head[i + 1..]);
      if j == |head[i + 1..]| then None else Some((head[..i], head[i + 1..][..j]))
  }

  function NumstatCounts(parts: seq<Bytes>, records: seq<RawRecord>): Option<seq<(Bytes, Bytes)>>
    decreases |records|
  {
    if records == [] then Some([])
    else if parts == [] || Counts(parts[0]).None? then None
    else if records[0].status.Renamed? && |parts| < 3 then None
    else
      var rest := NumstatCounts(parts[if records[0].status.Renamed? then 3 else 1..], records[1..]);
      if rest.None? then None else Some([Counts(parts[0]).value] + rest.value)
  }

  method ParseNumstat(data: Bytes, records: seq<RawRecord>) returns (result: Option<seq<(Bytes, Bytes)>>)
    ensures result == NumstatCounts(Split(data, NUL), records)
  {
    var parts := Split(data, NUL);
    var counts, index := [], 0;
    assert parts[0..] == parts && records[0..] == records;
    PrependOne([], ([], []), NumstatCounts(parts, records));
    for n := 0 to |records|
      invariant 0 <= index <= |parts|
      invariant NumstatCounts(parts, records) == Prepend(counts, NumstatCounts(parts[index..], records[n..]))
    {
      var record, at := records[n], index;
      assert records[n..][0] == record && records[n..][1..] == records[n + 1..];
      if index >= |parts| {
        return None;
      }
      var head := parts[index];
      index := index + 1;
      var fields := Counts(head);
      if fields.None? {
        return None;
      }
      if record.status.Renamed? {
        if index + 1 >= |parts| {
          return None;
        }
        index := index + 2;
      }
      assert parts[at..][if record.status.Renamed? then 3 else 1..] == parts[index..];
      PrependOne(counts, fields.value, NumstatCounts(parts[index..], records[n + 1..]));
      counts := counts + [fields.value];
    }
    PrependOne(counts, ([], []), Some([]));
    return Some(counts);
  }

  // ---- What Git prints ---------------------------------------------------

  // A change: its raw record, the similarity score after the status letter, and
  // the counts of added and removed lines.
  datatype Change = Change(record: RawRecord, score: Bytes, added: Bytes, removed: Bytes)

  predicate Plain(field: Bytes) {
    NUL !in field && TAB !in field && SPACE !in field
  }

  /** Paths are any bytes but NUL; the other fields have no separator in them. */
  predicate Printable(c: Change) {
    && Plain(c.record.oldMode) && Plain(c.record.newMode) && Plain(c.record.oldId) && Plain(c.record.newId)
    && Plain(c.score) && Plain(c.added) && Plain(c.removed)
    && NUL !in c.record.newPath
    && (c.record.status.Renamed? <==> c.record.oldPath.Some?)
    && (c.record.oldPath.Some? ==> NUL !in c.record.oldPath.value)
  }

  function Header(c: Change): Bytes {
    [COLON] + (c.record.oldMode + [SPACE] + (c.record.newMode + [SPACE] + (c.record.oldId + [SPACE]
      + (c.record.newId + [SPACE] + ([StatusLetter(c.record.status)] + c.score)))))
  }

  function Paths(c: Change): seq<Bytes> {
    if c.record.oldPath.Some? then [c.record.oldPath.value, c.record.newPath] else [c.record.newPath]
  }

  function RawFields(changes: seq<Change>): seq<Bytes> {
    if changes == [] then []
    else [Header(changes[0])] + Paths(changes[0]) + RawFields(changes[1..])
  }

  function PrintRaw(changes: seq<Change>): Bytes {
    Terminated(RawFields(changes))
  }

  /** A renamed file leaves the path field empty and names both paths after it. */
  function NumstatEntry(c: Change): seq<Bytes> {
    var head := c.added + [TAB] + (c.removed + [TAB]);
    if c.record.status.Renamed? then [head] + Paths(c) else [head + c.record.newPath]
  }

  function NumstatFields(changes: seq<Change>): seq<Bytes> {
    if changes == [] then [] else NumstatEntry(changes[0]) + NumstatFields(changes[1..])
  }

  function PrintNumstat(changes: seq<Change>): Bytes {
    Terminated(NumstatFields(changes))
  }

  // ---- Byte by byte ------------------------------------------------------

  /** `:old-mode new-mode old-id new-id M<score> NUL path NUL`; a rename has both
      paths. NUL, tab, space and colon are 0, 9, 32 and 58. */
  lemma RawBytes(c: Change)
    requires Printable(c)
    ensures var r := c.record;
      var header: Bytes := [58] + r.oldMode + [32] + r.newMode + [32] + r.oldId + [32] + r.newId + [32];
      && (r.status.Added? ==> PrintRaw([c]) == header + [65] + c.score + [0] + r.newPath + [0])
      && (r.status.Deleted? ==> PrintRaw([c]) == header + [68] + c.score + [0] + r.newPath + [0])
      && (r.status.Modified? ==> PrintRaw([c]) == header + [77] + c.score + [0] + r.newPath + [0])
      && (r.status.TypeChanged? ==> PrintRaw([c]) == header + [84] + c.score + [0] + r.newPath + [0])
      && (r.status.Renamed? ==>
            PrintRaw([c]) == header + [82] + c.score + [0] + r.oldPath.value + [0] + r.newPath + [0])
  {
    var r := c.record;
    var header: Bytes := [58] + r.oldMode + [32] + r.newMode + [32] + r.oldId + [32] + r.newId + [32];
    assert Header(c) == header + [StatusLetter(r.status)] + c.score;
    assert [c][1..] == [] && RawFields([c]) == [Header(c)] + Paths(c);
    TerminatedFew(Header(c), r.newPath, r.newPath);
    if r.oldPath.Some? {
      TerminatedFew(Header(c), r.oldPath.value, r.newPath);
      assert RawFields([c]) == [Header(c), r.oldPath.value, r.newPath];
    } else {
      assert RawFields([c]) == [Header(c), r.newPath];
    }
  }

  lemma TerminatedFew(a: Bytes, b: Bytes, c: Bytes)
    ensures Terminated([a]) == a + [NUL]
    ensures Terminated([a, b]) == a + [NUL] + (b + [NUL])
    ensures Terminated([a, b, c]) == a + [NUL] + (b + [NUL] + (c + [NUL]))
  {
    assert [a][1..] == [] && [b][1..] == [] && [c][1..] == [];
    assert [a, b][1..] == [b] && [b, c][1..] == [c] && [a, b, c][1..] == [b, c];
    assert Terminated([c]) == c + [NUL] && Terminated([b, c]) == b + [NUL] + Terminated([c]);
  }

  /** `added TAB removed TAB path NUL`; a rename leaves that path empty and appends
      both of its paths. */
  lemma NumstatBytes(c: Change)
    requires Printable(c)
    ensures !c.record.status.Renamed? ==>
      PrintNumstat([c]) == c.added + [9] + c.removed + [9] + c.record.newPath + [0]
    ensures c.record.status.Renamed? ==>
      PrintNumstat([c]) == c.added + [9] + c.removed + [9] + [0] + c.record.oldPath.value + [0] + c.record.newPath + [0]
  {
    var head := c.added + [TAB] + (c.removed + [TAB]);
    assert [c][1..] == [] && NumstatFields([c]) == NumstatEntry(c);
    if c.record.status.Renamed? {
      TerminatedFew(head, c.record.oldPath.value, c.record.newPath);
    } else {
      TerminatedFew(head + c.record.newPath, [], []);
    }
  }

  function Records(changes: seq<Change>): seq<RawRecord> {
    seq(|changes|, i requires 0 <= i < |changes| => changes[i].record)
  }

  function LineCounts(changes: seq<Change>): seq<(Bytes, Bytes)> {
    seq(|changes|, i requires 0 <= i < |changes| => (changes[i].added, changes[i].removed))
  }

  // ---- Round trips -------------------------------------------------------

  ghost predicate AllPrintable(changes: seq<Change>) {
    forall i :: 0 <= i < |changes| ==> Printable(changes[i])
  }

  lemma {:induction false} RawFieldsHaveNoNul(changes: seq<Change>)
    requires AllPrintable(changes)
    ensures forall f :: f in RawFields(changes) ==> NUL !in f
  {
    if changes != [] {
      RawFieldsHaveNoNul(changes[1..]);
      assert NUL !in Header(changes[0]);
    }
  }

  lemma {:induction false} NumstatFieldsHaveNoNul(changes: seq<Change>)
    requires AllPrintable(changes)
    ensures forall f :: f in NumstatFields(changes) ==> NUL !in f
  {
    if changes != [] {
      NumstatFieldsHaveNoNul(changes[1..]);
    }
  }

  lemma HeaderFields(c: Change)
    requires Printable(c)
    ensures Header(c)[0] == COLON
    ensures Split(Header(c)[1..], SPACE)
         == [c.record.oldMode, c.record.newMode, c.record.oldId, c.record.newId, [StatusLetter(c.record.status)] + c.score]
  {
    var r := c.record;
    var last := [StatusLetter(r.status)] + c.score;
    SplitWhole(last, SPACE);
    SplitAt(r.newId, SPACE, last);
    SplitAt(r.oldId, SPACE, r.newId + [SPACE] + last);
    SplitAt(r.newMode, SPACE, r.oldId + [SPACE] + (r.newId + [SPACE] + last));
    SplitAt(r.oldMode, SPACE, r.newMode + [SPACE] + (r.oldId + [SPACE] + (r.newId + [SPACE] + last)));
  }

  lemma FirstRecordPrinted(c: Change, rest: seq<Bytes>)
    requires Printable(c)
    ensures FirstRecord([Header(c)] + Paths(c) + rest) == Some((c.record, 1 + |Paths(c)|))
  {
    HeaderFields(c);
    assert StatusNamed([StatusLetter(c.record.status)] + c.score) == Some(c.record.status);
  }

  lemma {:induction false} RawPartsRoundTrip(changes: seq<Change>)
    requires AllPrintable(changes)
    ensures RawRecords(RawFields(changes) + [[]]) == Some(Records(changes))
    decreases |changes|
  {
    if changes == [] {
      var parts := RawFields(changes) + [[]];
      assert parts == [[]] && parts[1..] == [] && Records(changes) == [];
    } else {
      var c := changes[0];
      var rest := RawFields(changes[1..]) + [[]];
      var parts := RawFields(changes) + [[]];
      RawPartsRoundTrip(changes[1..]);
      FirstRecordPrinted(c, rest);
      assert parts == [Header(c)] + Paths(c) + rest;
      assert parts[1 + |Paths(c)|..] == rest;
      assert Records(changes) == [c.record] + Records(changes[1..]);
    }
  }

  /** Parsing the printed raw stream gives exactly the printed records. */
  lemma RawRoundTrip(changes: seq<Change>)
    requires AllPrintable(changes)
    ensures RawRecords(Split(PrintRaw(changes), NUL)) == Some(Records(changes))
  {
    RawFieldsHaveNoNul(changes);
    SplitTerminated(RawFields(changes));
    RawPartsRoundTrip(changes);
  }

  lemma TabAt(a: Bytes, rest: Bytes)
    requires TAB !in a
    ensures TabPosition(a + [TAB] + rest) == |a|
  {
    var data := a + [TAB] + rest;
    forall n | 0 <= n < |a|
      ensures data[n] != TAB
    {
      assert data[n] == a[n];
    }
    assert data[|a|] == TAB;
  }

  lemma CountsPrinted(added: Bytes, removed: Bytes, path: Bytes)
    requires TAB !in added && TAB !in removed
    ensures Counts(added + [TAB] + (removed + [TAB]) + path) == Some((added, removed))
  {
    var head := added + [TAB] + (removed + [TAB]) + path;
    assert head == added + [TAB] + (removed + [TAB] + path);
    TabAt(added, removed + [TAB] + path);
    assert head[|added| + 1..] == removed + [TAB] + path;
    TabAt(removed, path);
    assert head[..|added|] == added && (removed + [TAB] + path)[..|removed|] == removed;
  }

  lemma EntryPrinted(c: Change, rest: seq<Bytes>)
    requires Printable(c)
    ensures Counts(NumstatEntry(c)[0]) == Some((c.added, c.removed))
    ensures (NumstatEntry(c) + rest)[if c.record.status.Renamed? then 3 else 1..] == rest
  {
    var head := c.added + [TAB] + (c.removed + [TAB]);
    CountsPrinted(c.added, c.removed, if c.record.status.Renamed? then [] else c.record.newPath);
    assert head + [] == head;
  }

  lemma FirstEntry(changes: seq<Change>)
    requires changes != []
    ensures NumstatFields(changes) + [[]] == NumstatEntry(changes[0]) + (NumstatFields(changes[1..]) + [[]])
  {
    hide NumstatEntry;
    Regroup(NumstatEntry(changes[0]), NumstatFields(changes[1..]), [[]]);
  }

  lemma Regroup<T>(a: seq<T>, b: seq<T>, c: seq<T>)
    ensures a + b + c == a + (b + c)
  {
  }

  lemma FirstRecords(changes: seq<Change>)
    requires changes != []
    ensures Records(changes) != [] && Records(changes)[0] == changes[0].record
    ensures Records(changes)[1..] == Records(changes[1..])
  {
  }

  lemma FirstCounts(changes: seq<Change>)
    requires changes != []
    ensures LineCounts(changes) == [(changes[0].added, changes[0].removed)] + LineCounts(changes[1..])
  {
  }

  lemma {:induction false} NumstatPartsRoundTrip(changes: seq<Change>)
    requires AllPrintable(changes)
    ensures NumstatCounts(NumstatFields(changes) + [[]], Records(changes)) == Some(LineCounts(changes))
    decreases |changes|
  {
    if changes == [] {
      assert Records(changes) == [] && LineCounts(changes) == [];
    } else {
      NumstatPartsRoundTrip(changes[1..]);
      FirstEntry(changes);
      FirstRecords(changes);
      FirstCounts(changes);
      hide NumstatEntry, NumstatFields, NumstatCounts, Records, LineCounts;
      EntryCounts(changes[0], NumstatFields(changes[1..]) + [[]], Records(changes), LineCounts(changes[1..]));
    }
  }

  lemma EntryCounts(c: Change, rest: seq<Bytes>, records: seq<RawRecord>, counts: seq<(Bytes, Bytes)>)
    requires Printable(c) && records != [] && records[0] == c.record
    requires NumstatCounts(rest, records[1..]) == Some(counts)
    ensures NumstatCounts(NumstatEntry(c) + rest, records) == Some([(c.added, c.removed)] + counts)
  {
    var parts := NumstatEntry(c) + rest;
    EntryPrinted(c, rest);
    assert parts[0] == NumstatEntry(c)[0];
    assert c.record.status.Renamed? ==> |parts| >= 3;
  }

  /** Parsing the printed numstat stream against the records gives exactly the
      printed counts, in the records' own order. */
  lemma NumstatRoundTrip(changes: seq<Change>)
    requires AllPrintable(changes)
    ensures NumstatCounts(Split(PrintNumstat(changes), NUL), Records(changes)) == Some(LineCounts(changes))
  {
    NumstatFieldsHaveNoNul(changes);
    SplitTerminated(NumstatFields(changes));
    NumstatPartsRoundTrip(changes);
  }

  /** Both streams of one diff, parsed as `capture_committed_range` does. */
  method CaptureChanges(changes: seq<Change>) returns (records: seq<RawRecord>, counts: seq<(Bytes, Bytes)>)
    requires AllPrintable(changes)
    ensures records == Records(changes) && counts == LineCounts(changes)
  {
    RawRoundTrip(changes);
    NumstatRoundTrip(changes);
    var raw := ParseRaw(PrintRaw(changes));
    records := raw.value;
    var numstat := ParseNumstat(PrintNumstat(changes), records);
    counts := numstat.value;
  }
}
