/** The bounded walk over an ELF file's GNU version requirement table
    (packaging/scripts/verify_mozc_artifact_bundle.py:379-406, 541-630).
    The table is untrusted; its layout is the one of the Linux Standard Base Core Specification,
    section "Version Requirements". */
module VersionRequirements {
  import opened Results
  import opened Sequences

  type byte = x: int | 0 <= x < 256

  /** The size of one entry, of either kind. */
  const StructureSize: nat := 16

  const RequirementVersion: nat := 1

  // ------------------------------------------------------------- little-endian fields

  /** Reading past the end gives zero; the walk never does, as it slices first. */
  function At(t: seq<byte>, offset: nat): nat {
    if offset < |t| then t[offset] else 0
  }

  function Half(t: seq<byte>, offset: nat): nat {
    At(t, offset) + 0x100 * At(t, offset + 1)
  }

  function Word(t: seq<byte>, offset: nat): nat {
    Half(t, offset) + 0x1_0000 * Half(t, offset + 2)
  }

  lemma {:induction false} FieldsOfSlice(t: seq<byte>, offset: nat)
    requires offset + StructureSize <= |t|
    ensures var e := t[offset..offset + StructureSize];
      && Half(e, 0) == Half(t, offset) && Half(e, 2) == Half(t, offset + 2)
      && Word(e, 8) == Word(t, offset + 8) && Word(e, 12) == Word(t, offset + 12)
  {
  }

  // ---------------------------------------------------------------- checked accesses

  function SliceElf(data: seq<byte>, offset: int, size: int): (r: Result<seq<byte>>)
    ensures r.Ok? <==> 0 <= offset && 0 <= size && offset + size <= |data|
    ensures r.Ok? ==> |r.value| == size && forall k :: 0 <= k < size ==> r.value[k] == data[offset + k]
  {
    if offset < 0 || size < 0 || offset > |data| || size > |data| - offset then Err("invalid range")
    else Ok(data[offset..offset + size])
  }

  /** The first NUL at or after `offset`, or the length of the table. */
  function FindNul(table: seq<byte>, offset: nat): (end: nat)
    requires offset <= |table|
    ensures offset <= end <= |table|
    ensures forall k :: offset <= k < end ==> table[k] != 0
    ensures end < |table| ==> table[end] == 0
    decreases |table| - offset
  {
    if offset == |table| || table[offset] == 0 then offset else FindNul(table, offset + 1)
  }

  function DecodeAscii(s: seq<byte>): (r: string)
    requires forall k :: 0 <= k < |s| ==> s[k] < 128
    ensures |r| == |s| && forall k :: 0 <= k < |s| ==> r[k] == s[k] as char
  {
    seq(|s|, k requires 0 <= k < |s| => s[k] as char)
  }

  /** The text is in the table at this offset: ASCII, and closed by the first NUL after it. */
  predicate IsStringAt(table: seq<byte>, offset: nat, text: string) {
    && offset + |text| < |table|
    && table[offset + |text|] == 0
    && forall k :: 0 <= k < |text| ==> 0 < table[offset + k] < 128 && text[k] == table[offset + k] as char
  }

  ghost predicate HasStringAt(table: seq<byte>, offset: nat) {
    exists text :: IsStringAt(table, offset, text)
  }

  lemma {:induction false} Spans(table: seq<byte>, offset: nat, text: string)
    requires IsStringAt(table, offset, text)
    ensures forall k :: offset <= k < offset + |text| ==> 0 < table[k] < 128
  {
    forall k | offset <= k < offset + |text| ensures 0 < table[k] < 128 {
      assert text[k - offset] == table[offset + (k - offset)] as char;
    }
  }

  lemma {:induction false} NoStringOver(table: seq<byte>, offset: nat, k: nat)
    requires offset <= k < |table| && table[k] >= 128 && forall i :: offset <= i <= k ==> table[i] != 0
    ensures !HasStringAt(table, offset)
  {
    forall text ensures !IsStringAt(table, offset, text) {
      if IsStringAt(table, offset, text) { Spans(table, offset, text); }
    }
  }

  function ElfString(table: seq<byte>, offset: int): (r: Result<string>)
    ensures r.Ok? ==> 0 <= offset && IsStringAt(table, offset, r.value)
    ensures r.Err? ==> offset < 0 || !HasStringAt(table, offset)
  {
    if offset < 0 || offset >= |table| then Err("invalid string offset")
    else
      var end := FindNul(table, offset);
      if end == |table| then Err("unterminated string")
      else if exists k :: offset <= k < end && table[k] >= 128 then
        var k :| offset <= k < end && table[k] >= 128;
        NoStringOver(table, offset, k);
        Err("non-ASCII string")
      else Ok(DecodeAscii(table[offset..end]))
  }

  // --------------------------------------------------------- what the table declares

  /** The offset of requirement `i`: its predecessor's, advanced by that entry's next field. */
  ghost function RequirementAt(t: seq<byte>, i: nat): nat {
    if i == 0 then 0 else RequirementAt(t, i - 1) + Word(t, RequirementAt(t, i - 1) + 12)
  }

  ghost function AuxiliaryCount(t: seq<byte>, requirement: nat): nat {
    Half(t, requirement + 2)
  }

  /** The offset of auxiliary entry `j` of a requirement. */
  ghost function AuxiliaryAt(t: seq<byte>, requirement: nat, j: nat): nat {
    if j == 0 then requirement + Word(t, requirement + 8)
    else AuxiliaryAt(t, requirement, j - 1) + Word(t, AuxiliaryAt(t, requirement, j - 1) + 12)
  }

  ghost function Auxiliaries(t: seq<byte>, requirement: nat, n: nat): (s: seq<nat>)
    ensures |s| == n
  {
    if n == 0 then [] else Auxiliaries(t, requirement, n - 1) + [AuxiliaryAt(t, requirement, n - 1)]
  }

  /** The declared structures of the first `n` requirements, in the order of the walk. */
  ghost function Structures(t: seq<byte>, n: nat): seq<nat> {
    if n == 0 then [] else Structures(t, n - 1) + Block(t, RequirementAt(t, n - 1))
  }

  ghost function Block(t: seq<byte>, requirement: nat): seq<nat> {
    [requirement] + Auxiliaries(t, requirement, AuxiliaryCount(t, requirement))
  }

  predicate Linked(next: nat, last: bool) {
    if last then next == 0 else next >= StructureSize
  }

  ghost predicate AuxiliaryOk(t: seq<byte>, strings: seq<byte>, requirement: nat, j: nat) {
    var a := AuxiliaryAt(t, requirement, j);
    && a + StructureSize <= |t|
    && HasStringAt(strings, Word(t, a + 8))
    && Linked(Word(t, a + 12), j + 1 == AuxiliaryCount(t, requirement))
  }

  ghost predicate HeaderOk(t: seq<byte>, requirement: nat) {
    && requirement + StructureSize <= |t|
    && Half(t, requirement) == RequirementVersion
    && AuxiliaryCount(t, requirement) > 0
    && Word(t, requirement + 8) >= StructureSize
  }

  ghost predicate RequirementOk(t: seq<byte>, strings: seq<byte>, i: nat, count: nat) {
    var r := RequirementAt(t, i);
    && HeaderOk(t, r)
    && Linked(Word(t, r + 12), i + 1 == count)
    && forall j :: 0 <= j < AuxiliaryCount(t, r) ==> AuxiliaryOk(t, strings, r, j)
  }

  /** The chains are complete, stay in range, never share a structure and fit the work budget. */
  ghost predicate WellFormed(t: seq<byte>, strings: seq<byte>, count: nat) {
    && count > 0
    && (forall i :: 0 <= i < count ==> RequirementOk(t, strings, i, count))
    && NoRepeats(Structures(t, count))
    && |Structures(t, count)| <= |t| / StructureSize
  }

  /** Some auxiliary entry among the first `n` requirements names this version. */
  ghost predicate Named(t: seq<byte>, strings: seq<byte>, n: nat, version: string) {
    exists i :: 0 <= i < n && NamedBy(t, strings, i, AuxiliaryCount(t, RequirementAt(t, i)), version)
  }

  /** One of the first `n` auxiliary entries of requirement `i` names it. */
  ghost predicate NamedBy(t: seq<byte>, strings: seq<byte>, i: nat, n: nat, version: string) {
    exists j :: 0 <= j < n && Names(t, strings, i, j, version)
  }

  ghost predicate Names(t: seq<byte>, strings: seq<byte>, i: nat, j: nat, version: string) {
    IsStringAt(strings, Word(t, AuxiliaryAt(t, RequirementAt(t, i), j) + 8), version)
  }

  lemma {:induction false} OneStringPerOffset(table: seq<byte>, offset: nat, a: string, b: string)
    requires IsStringAt(table, offset, a) && IsStringAt(table, offset, b)
    ensures a == b
  {
    NotLonger(table, offset, a, b);
    NotLonger(table, offset, b, a);
  }

  lemma {:induction false} NotLonger(table: seq<byte>, offset: nat, a: string, b: string)
    requires IsStringAt(table, offset, a) && IsStringAt(table, offset, b)
    ensures |a| <= |b|
  {
    Spans(table, offset, a);
  }

  // ----------------------------------------------------------------------- the walk

  /** What has been read: distinct structures, all in range, one unit of work each. */
  ghost predicate Sound(t: seq<byte>, trace: seq<nat>, visited: set<nat>, remaining: nat) {
    && NoRepeats(trace)
    && visited == (set o | o in trace)
    && |trace| + remaining == |t| / StructureSize
    && forall o :: o in trace ==> o + StructureSize <= |t|
  }

  ghost predicate InRange(t: seq<byte>, trace: seq<nat>) {
    && NoRepeats(trace)
    && |trace| <= |t| / StructureSize
    && forall o :: o in trace ==> o + StructureSize <= |t|
  }

  /** What is charged against the budget: the structures read, and at most one more whose reading failed. */
  ghost predicate Charged(t: seq<byte>, trace: seq<nat>, charged: seq<nat>) {
    && trace <= charged && |charged| <= |trace| + 1
    && NoRepeats(charged) && |charged| <= |t| / StructureSize
  }

  lemma {:induction false} ChargedNext(t: seq<byte>, trace: seq<nat>, visited: set<nat>, remaining: nat, o: nat)
    requires Sound(t, trace, visited, remaining)
    ensures Charged(t, trace, trace)
    ensures o !in visited && remaining > 0 ==> Charged(t, trace, trace + [o])
  {
  }

  lemma {:induction false} SoundNext(t: seq<byte>, trace: seq<nat>, visited: set<nat>, remaining: nat, o: nat)
    requires Sound(t, trace, visited, remaining) && o !in visited && remaining > 0 && o + StructureSize <= |t|
    ensures Sound(t, trace + [o], visited + {o}, remaining - 1)
  {
  }

  lemma {:induction false} StructuresExtend(t: seq<byte>, i: nat, n: nat)
    requires i <= n
    ensures Structures(t, i) <= Structures(t, n)
  {
    if i < n {
      StructuresExtend(t, i, n - 1);
    }
  }

  lemma {:induction false} AuxiliariesExtend(t: seq<byte>, r: nat, i: nat, n: nat)
    requires i <= n
    ensures Auxiliaries(t, r, i) <= Auxiliaries(t, r, n)
  {
    if i < n {
      AuxiliariesExtend(t, r, i, n - 1);
    }
  }

  lemma {:induction false} Prefixes(a: seq<nat>, b: seq<nat>, c: seq<nat>, d: seq<nat>)
    requires c <= d
    ensures a + b + c <= a + (b + d)
  {
    assert (a + b + c) + d[|c|..] == a + (b + d);
  }

  /** While requirement `i` is being read, the trace with the next structure begins every complete walk. */
  lemma {:induction false} PartialBlock(t: seq<byte>, i: nat, j: nat, count: nat)
    requires i < count && j <= AuxiliaryCount(t, RequirementAt(t, i))
    ensures Structures(t, i) + [RequirementAt(t, i)] + Auxiliaries(t, RequirementAt(t, i), j) <= Structures(t, count)
  {
    var r := RequirementAt(t, i);
    StructuresExtend(t, i + 1, count);
    AuxiliariesExtend(t, r, j, AuxiliaryCount(t, r));
    Prefixes(Structures(t, i), [r], Auxiliaries(t, r, j), Auxiliaries(t, r, AuxiliaryCount(t, r)));
    assert Structures(t, i + 1) == Structures(t, i) + Block(t, r);
    hide *;
  }

  /** A structure met again, or met with no work left, rules out every complete walk. */
  lemma {:induction false} Refused(t: seq<byte>, strings: seq<byte>, count: nat, trace: seq<nat>,
      visited: set<nat>, remaining: nat, o: nat)
    requires Sound(t, trace, visited, remaining) && trace + [o] <= Structures(t, count)
    requires o in visited || remaining == 0
    ensures !WellFormed(t, strings, count)
  {
    if o in visited {
      var k :| 0 <= k < |trace| && trace[k] == o;
      assert Structures(t, count)[k] == (trace + [o])[k] && Structures(t, count)[|trace|] == (trace + [o])[|trace|];
    }
  }

  /** Reads requirement entry `i`: its auxiliary count, and the offsets of its first auxiliary entry
      and of the next requirement. */
  method ReadRequirement(t: seq<byte>, cursor: nat, remaining: nat) returns (r: Result<(nat, nat, nat)>)
    ensures r.Ok? <==> HeaderOk(t, cursor) && AuxiliaryCount(t, cursor) <= remaining
    ensures r.Ok? ==>
      r.value == (AuxiliaryCount(t, cursor), cursor + Word(t, cursor + 8), Word(t, cursor + 12))
  {
    var slice := SliceElf(t, cursor, StructureSize);
    if slice.Err? { return Err(slice.message); }
    var entry := slice.value;
    assert entry == t[cursor..cursor + StructureSize];
    FieldsOfSlice(t, cursor);
    var version, auxiliaryCount := Half(entry, 0), Half(entry, 2);
    var auxiliaryOffset, nextOffset := Word(entry, 8), Word(entry, 12);
    hide Half, Word;
    if version != RequirementVersion || auxiliaryCount == 0 {
      return Err("invalid GNU version requirement");
    }
    if auxiliaryOffset < StructureSize {
      return Err("invalid GNU version chain");
    }
    if auxiliaryCount > remaining {
      return Err("GNU version chain exceeds its work budget");
    }
    r := Ok((auxiliaryCount, cursor + auxiliaryOffset, nextOffset));
  }

  /** Reads one auxiliary entry: the version it names and its next field. */
  method ReadAuxiliary(t: seq<byte>, strings: seq<byte>, cursor: nat) returns (r: Result<(string, nat)>)
    ensures r.Ok? <==> cursor + StructureSize <= |t| && HasStringAt(strings, Word(t, cursor + 8))
    ensures r.Ok? ==> IsStringAt(strings, Word(t, cursor + 8), r.value.0) && r.value.1 == Word(t, cursor + 12)
  {
    var slice := SliceElf(t, cursor, StructureSize);
    if slice.Err? { return Err(slice.message); }
    assert slice.value == t[cursor..cursor + StructureSize];
    FieldsOfSlice(t, cursor);
    var nameOffset, next := Word(slice.value, 8), Word(slice.value, 12);
    hide Half, Word;
    var name := ElfString(strings, nameOffset);
    match name
    case Err(message) => r := Err(message);
    case Ok(text) => r := Ok((text, next));
  }

  lemma {:induction false} NamedNext(t: seq<byte>, strings: seq<byte>, i: nat, j: nat, text: string)
    requires IsStringAt(strings, Word(t, AuxiliaryAt(t, RequirementAt(t, i), j) + 8), text)
    ensures forall v :: NamedBy(t, strings, i, j + 1, v) <==> NamedBy(t, strings, i, j, v) || v == text
  {
    var offset := Word(t, AuxiliaryAt(t, RequirementAt(t, i), j) + 8);
    forall v ensures NamedBy(t, strings, i, j + 1, v) <==> NamedBy(t, strings, i, j, v) || v == text {
      if Names(t, strings, i, j, v) {
        OneStringPerOffset(strings, offset, v, text);
      }
      assert Names(t, strings, i, j, text);
    }
  }

  /** Requirement `i` read up to its auxiliary entry `j`. */
  ghost predicate WithinBlock(t: seq<byte>, strings: seq<byte>, i: nat, j: nat, trace: seq<nat>, visited: set<nat>,
                              remaining: nat, versions: set<string>) {
    var r := RequirementAt(t, i);
    && Sound(t, trace, visited, remaining)
    && trace == Structures(t, i) + [r] + Auxiliaries(t, r, j)
    && (forall k :: 0 <= k < j ==> AuxiliaryOk(t, strings, r, k))
    && forall v :: v in versions <==> Named(t, strings, i, v) || NamedBy(t, strings, i, j, v)
  }

  lemma {:induction false} AuxiliaryInRange(t: seq<byte>, strings: seq<byte>, requirement: nat, j: nat)
    requires AuxiliaryOk(t, strings, requirement, j)
    ensures AuxiliaryAt(t, requirement, j) + StructureSize <= |t|
  {
  }

  lemma {:induction false} WithinBlockNext(t: seq<byte>, strings: seq<byte>, i: nat, j: nat, trace: seq<nat>,
      visited: set<nat>, remaining: nat, versions: set<string>, text: string)
    requires WithinBlock(t, strings, i, j, trace, visited, remaining, versions)
    requires remaining > 0 && AuxiliaryAt(t, RequirementAt(t, i), j) !in visited
    requires AuxiliaryOk(t, strings, RequirementAt(t, i), j)
    requires IsStringAt(strings, Word(t, AuxiliaryAt(t, RequirementAt(t, i), j) + 8), text)
    ensures var cursor := AuxiliaryAt(t, RequirementAt(t, i), j);
      WithinBlock(t, strings, i, j + 1, trace + [cursor], visited + {cursor}, remaining - 1, versions + {text})
  {
    hide Sound, Named, NamedBy, AuxiliaryOk, Structures, Auxiliaries, RequirementAt, AuxiliaryAt, IsStringAt,
      HasStringAt, Half, Word;
    var r := RequirementAt(t, i);
    var cursor := AuxiliaryAt(t, r, j);
    AuxiliaryInRange(t, strings, r, j);
    SoundNext(t, trace, visited, remaining, cursor);
    NamedNext(t, strings, i, j, text);
    AuxiliariesNext(t, r, j, Structures(t, i) + [r]);
  }

  lemma {:induction false} AuxiliariesNext(t: seq<byte>, requirement: nat, j: nat, before: seq<nat>)
    ensures before + Auxiliaries(t, requirement, j + 1)
      == before + Auxiliaries(t, requirement, j) + [AuxiliaryAt(t, requirement, j)]
  {
  }

  lemma {:induction false} BlockInRange(t: seq<byte>, strings: seq<byte>, i: nat, j: nat, trace: seq<nat>,
      visited: set<nat>, remaining: nat, versions: set<string>)
    requires WithinBlock(t, strings, i, j, trace, visited, remaining, versions)
    ensures Sound(t, trace, visited, remaining) && InRange(t, trace)
  {
    hide Sound, InRange, Structures, Auxiliaries, AuxiliaryOk, Named, NamedBy, RequirementAt;
    SoundInRange(t, trace, visited, remaining);
  }

  lemma {:induction false} SoundInRange(t: seq<byte>, trace: seq<nat>, visited: set<nat>, remaining: nat)
    requires Sound(t, trace, visited, remaining)
    ensures InRange(t, trace)
  {
  }

  lemma {:induction false} RefusedWithin(t: seq<byte>, strings: seq<byte>, count: nat, i: nat, j: nat,
      trace: seq<nat>, visited: set<nat>, remaining: nat, versions: set<string>)
    requires WithinBlock(t, strings, i, j, trace, visited, remaining, versions)
    requires i < count && j < AuxiliaryCount(t, RequirementAt(t, i))
    requires AuxiliaryAt(t, RequirementAt(t, i), j) in visited || remaining == 0
    ensures !WellFormed(t, strings, count)
  {
    var r := RequirementAt(t, i);
    var cursor := AuxiliaryAt(t, r, j);
    PartialBlock(t, i, j + 1, count);
    assert Structures(t, i) + [r] + Auxiliaries(t, r, j + 1) == trace + [cursor];
    Refused(t, strings, count, trace, visited, remaining, cursor);
  }

  /** The inner loop: the auxiliary entries of requirement `i`, the first of them at `first`. */
  method WalkAuxiliaries(t: seq<byte>, strings: seq<byte>, ghost i: nat, ghost count: nat, first: nat,
                         auxiliaryCount: nat, visited: set<nat>, remaining: nat, versions: set<string>,
                         ghost trace: seq<nat>)
    returns (ok: bool, visited': set<nat>, remaining': nat, versions': set<string>, ghost trace': seq<nat>,
             ghost charged: seq<nat>)
    requires i < count && auxiliaryCount == AuxiliaryCount(t, RequirementAt(t, i)) > 0
    requires first == AuxiliaryAt(t, RequirementAt(t, i), 0)
    requires WithinBlock(t, strings, i, 0, trace, visited, remaining, versions)
    ensures InRange(t, trace') && Charged(t, trace', charged)
    ensures ok ==>
      WithinBlock(t, strings, i, auxiliaryCount, trace', visited', remaining', versions') && charged == trace'
    ensures !ok ==> !WellFormed(t, strings, count)
  {
    hide Sound, InRange, Charged, WithinBlock, WellFormed, IsStringAt, HasStringAt, Half, Word, RequirementAt;
    visited', remaining', versions', trace' := visited, remaining, versions, trace;
    ok := true;
    var cursor := first;
    for j := 0 to auxiliaryCount
      invariant ok && WithinBlock(t, strings, i, j, trace', visited', remaining', versions')
      invariant j < auxiliaryCount ==> cursor == AuxiliaryAt(t, RequirementAt(t, i), j)
    {
      ghost var r := RequirementAt(t, i);
      BlockInRange(t, strings, i, j, trace', visited', remaining', versions');
      ChargedNext(t, trace', visited', remaining', cursor);
      if cursor in visited' || remaining' == 0 {
        RefusedWithin(t, strings, count, i, j, trace', visited', remaining', versions');
        ok, charged := false, trace';
        return;
      }
      var entry := ReadAuxiliary(t, strings, cursor);
      if entry.Err? || !Linked(entry.value.1, j + 1 == auxiliaryCount) {
        NotWellFormed(t, strings, count, i, j);
        ok, charged := false, trace' + [cursor];
        return;
      }
      assert HasStringAt(strings, Word(t, cursor + 8));
      WithinBlockNext(t, strings, i, j, trace', visited', remaining', versions', entry.value.0);
      visited', remaining', trace' := visited' + {cursor}, remaining' - 1, trace' + [cursor];
      versions' := versions' + {entry.value.0};
      if j + 1 < auxiliaryCount {
        cursor := cursor + entry.value.1;
      }
    }
    BlockInRange(t, strings, i, auxiliaryCount, trace', visited', remaining', versions');
    charged := trace';
    ChargedNext(t, trace', visited', remaining', 0);
  }

  /** One bad auxiliary entry refuses the table. */
  lemma {:induction false} NotWellFormed(t: seq<byte>, strings: seq<byte>, count: nat, i: nat, j: nat)
    requires i < count && j < AuxiliaryCount(t, RequirementAt(t, i))
    requires !AuxiliaryOk(t, strings, RequirementAt(t, i), j)
    ensures !WellFormed(t, strings, count)
  {
    assert !RequirementOk(t, strings, i, count);
  }

  // ---------------------------------------------------------- the requirement chain

  /** The first `i` requirements read in full. */
  ghost predicate Between(t: seq<byte>, strings: seq<byte>, i: nat, count: nat, trace: seq<nat>, visited: set<nat>,
                          remaining: nat, versions: set<string>) {
    && Sound(t, trace, visited, remaining)
    && trace == Structures(t, i)
    && (forall k :: 0 <= k < i ==> RequirementOk(t, strings, k, count))
    && forall v :: v in versions <==> Named(t, strings, i, v)
  }

  lemma {:induction false} StructuresLong(t: seq<byte>, n: nat)
    ensures |Structures(t, n)| >= n
  {
    if n > 0 { StructuresLong(t, n - 1); }
  }

  /** A requirement met again, unreadable, or with more auxiliary entries than the budget left. */
  lemma {:induction false} RefusedHeader(t: seq<byte>, strings: seq<byte>, i: nat, count: nat, trace: seq<nat>,
      visited: set<nat>, remaining: nat, versions: set<string>)
    requires i < count && Between(t, strings, i, count, trace, visited, remaining, versions)
    requires var r := RequirementAt(t, i);
      r in visited || remaining == 0 || !HeaderOk(t, r) || AuxiliaryCount(t, r) > remaining - 1
    ensures !WellFormed(t, strings, count)
  {
    hide RequirementAt, RequirementOk, Structures, Sound, Named, HeaderOk, AuxiliaryCount, WellFormed,
      NoRepeats;
    var r := RequirementAt(t, i);
    if r in visited || remaining == 0 {
      NextRequirement(t, i, count);
      Refused(t, strings, count, trace, visited, remaining, r);
    } else if !HeaderOk(t, r) {
      BadHeader(t, strings, count, i);
    } else {
      SoundBudget(t, trace, visited, remaining);
      OverBudget(t, strings, i, count, remaining);
    }
  }

  lemma {:induction false} BadHeader(t: seq<byte>, strings: seq<byte>, count: nat, i: nat)
    requires i < count && !HeaderOk(t, RequirementAt(t, i))
    ensures !RequirementOk(t, strings, i, count) && !WellFormed(t, strings, count)
  {
    hide HeaderOk, RequirementAt;
    assert !RequirementOk(t, strings, i, count);
  }

  lemma {:induction false} SoundBudget(t: seq<byte>, trace: seq<nat>, visited: set<nat>, remaining: nat)
    requires Sound(t, trace, visited, remaining)
    ensures |trace| + remaining == |t| / StructureSize
  {
  }

  lemma {:induction false} NextRequirement(t: seq<byte>, i: nat, count: nat)
    requires i < count
    ensures Structures(t, i) + [RequirementAt(t, i)] <= Structures(t, count)
  {
    PartialBlock(t, i, 0, count);
    hide Structures, RequirementAt;
    assert Structures(t, i) + [RequirementAt(t, i)] + Auxiliaries(t, RequirementAt(t, i), 0)
      == Structures(t, i) + [RequirementAt(t, i)];
  }

  lemma {:induction false} OverBudget(t: seq<byte>, strings: seq<byte>, i: nat, count: nat, remaining: nat)
    requires i < count && |Structures(t, i)| + remaining == |t| / StructureSize
    requires AuxiliaryCount(t, RequirementAt(t, i)) + 1 > remaining
    ensures !WellFormed(t, strings, count)
  {
    hide RequirementAt, RequirementOk, AuxiliaryCount, NoRepeats, Auxiliaries;
    StructuresExtend(t, i + 1, count);
    assert |Structures(t, i + 1)| == |Structures(t, i)| + 1 + AuxiliaryCount(t, RequirementAt(t, i));
  }

  lemma {:induction false} ReadSoFar(t: seq<byte>, strings: seq<byte>, i: nat, count: nat, trace: seq<nat>,
      visited: set<nat>, remaining: nat, versions: set<string>)
    requires Between(t, strings, i, count, trace, visited, remaining, versions)
    requires HeaderOk(t, RequirementAt(t, i))
    ensures forall k :: 0 <= k < i ==> RequirementOk(t, strings, k, count)
    ensures AuxiliaryCount(t, RequirementAt(t, i)) > 0
  {
    hide RequirementOk, RequirementAt;
  }

  lemma {:induction false} OutOfRange(t: seq<byte>, strings: seq<byte>, count: nat, i: nat)
    requires i < count && RequirementAt(t, i) >= |t|
    ensures !WellFormed(t, strings, count)
  {
    hide RequirementAt;
    BadHeader(t, strings, count, i);
  }

  lemma {:induction false} EnterRequirement(t: seq<byte>, strings: seq<byte>, i: nat, count: nat,
      trace: seq<nat>, visited: set<nat>, remaining: nat, versions: set<string>)
    requires Between(t, strings, i, count, trace, visited, remaining, versions)
    requires RequirementAt(t, i) !in visited && remaining > 0 && HeaderOk(t, RequirementAt(t, i))
    ensures var r := RequirementAt(t, i);
      WithinBlock(t, strings, i, 0, trace + [r], visited + {r}, remaining - 1, versions)
  {
    hide Half, Word, RequirementAt, Named, Sound;
    var r := RequirementAt(t, i);
    SoundNext(t, trace, visited, remaining, r);
    assert Structures(t, i) + [r] + Auxiliaries(t, r, 0) == trace + [r];
  }

  lemma {:induction false} LeaveRequirement(t: seq<byte>, strings: seq<byte>, i: nat, count: nat,
      trace: seq<nat>, visited: set<nat>, remaining: nat, versions: set<string>)
    requires i < count && HeaderOk(t, RequirementAt(t, i))
    requires Linked(Word(t, RequirementAt(t, i) + 12), i + 1 == count)
    requires forall k :: 0 <= k < i ==> RequirementOk(t, strings, k, count)
    requires WithinBlock(t, strings, i, AuxiliaryCount(t, RequirementAt(t, i)), trace, visited, remaining, versions)
    ensures Between(t, strings, i + 1, count, trace, visited, remaining, versions)
  {
    hide Half, Word, RequirementAt, NamedBy, Sound, AuxiliaryOk, HeaderOk, Auxiliaries;
    var r := RequirementAt(t, i);
    var n := AuxiliaryCount(t, r);
    assert trace == Structures(t, i) + ([r] + Auxiliaries(t, r, n));
    assert RequirementOk(t, strings, i, count);
    forall v ensures Named(t, strings, i + 1, v) <==> Named(t, strings, i, v) || NamedBy(t, strings, i, n, v) {
    }
  }

  lemma {:induction false} Complete(t: seq<byte>, strings: seq<byte>, count: nat, trace: seq<nat>,
      visited: set<nat>, remaining: nat, versions: set<string>)
    requires count > 0 && Between(t, strings, count, count, trace, visited, remaining, versions)
    ensures WellFormed(t, strings, count) && trace == Structures(t, count)
    ensures forall v :: v in versions <==> Named(t, strings, count, v)
  {
    hide RequirementOk, Named;
  }

  lemma {:induction false} ChargedBetween(t: seq<byte>, strings: seq<byte>, i: nat, count: nat, trace: seq<nat>,
      visited: set<nat>, remaining: nat, versions: set<string>, o: nat)
    requires Between(t, strings, i, count, trace, visited, remaining, versions) && o !in visited && remaining > 0
    ensures Charged(t, trace, trace + [o])
  {
    hide Sound, Charged, RequirementOk, Named;
    ChargedNext(t, trace, visited, remaining, o);
  }

  /** The walk accepts exactly the well-formed tables and returns exactly the versions they name; whatever the
      bytes, it reads distinct structures in range, and they and the one whose reading failed are distinct and
      at most one per 16 bytes. */
  method WalkRequirements(t: seq<byte>, strings: seq<byte>, count: nat)
    returns (r: Result<set<string>>, ghost trace: seq<nat>, ghost charged: seq<nat>)
    ensures r.Ok? <==> WellFormed(t, strings, count)
    ensures r.Ok? ==> forall v :: v in r.value <==> Named(t, strings, count, v)
    ensures r.Ok? ==> trace == charged == Structures(t, count)
    ensures InRange(t, trace) && Charged(t, trace, charged)
  {
    hide Sound, InRange, Charged, WithinBlock, Between, WellFormed, HeaderOk, Half, Word, Named, Structures;
    trace, charged := [], [];
    Started(t, strings, count);
    var budget := |t| / StructureSize;
    if count == 0 || count > budget {
      r := Err("GNU version chain exceeds its work budget");
      TooMany(t, strings, count);
      return;
    }
    var versions: set<string>, cursor: nat, visited: set<nat>, remaining: nat := {}, 0, {}, budget;
    for i := 0 to count
      invariant InRange(t, trace) && Charged(t, trace, charged) && charged == trace
      invariant Between(t, strings, i, count, trace, visited, remaining, versions)
      invariant i < count ==> cursor == RequirementAt(t, i)
    {
      if cursor in visited || remaining == 0 {
        RefusedHeader(t, strings, i, count, trace, visited, remaining, versions);
        r := Err("non-monotonic GNU requirement chain");
        return;
      }
      var entry := ReadRequirement(t, cursor, remaining - 1);
      if entry.Err? {
        RefusedHeader(t, strings, i, count, trace, visited, remaining, versions);
        ChargedBetween(t, strings, i, count, trace, visited, remaining, versions, cursor);
        return Err(entry.message), trace, trace + [cursor];
      }
      var (auxiliaryCount, first, next) := entry.value;
      EnterRequirement(t, strings, i, count, trace, visited, remaining, versions);
      ReadSoFar(t, strings, i, count, trace, visited, remaining, versions);
      var ok;
      ok, visited, remaining, versions, trace, charged := WalkAuxiliaries(t, strings, i, count, first, auxiliaryCount,
        visited + {cursor}, remaining - 1, versions, trace + [cursor]);
      if !ok || !Linked(next, i + 1 == count) {
        r := Err("unterminated or invalid GNU requirement chain");
        if ok { assert !RequirementOk(t, strings, i, count); }
        BadRequirement(t, strings, count, i);
        return;
      }
      LeaveRequirement(t, strings, i, count, trace, visited, remaining, versions);
      if i + 1 < count {
        cursor := cursor + next;
        if cursor >= |t| {
          r := Err("GNU requirement chain is out of range");
          OutOfRange(t, strings, count, i + 1);
          return;
        }
      }
    }
    Complete(t, strings, count, trace, visited, remaining, versions);
    r := Ok(versions);
  }

  lemma {:induction false} Started(t: seq<byte>, strings: seq<byte>, count: nat)
    ensures Between(t, strings, 0, count, [], {}, |t| / StructureSize, {}) && InRange(t, []) && Charged(t, [], [])
  {
  }

  lemma {:induction false} TooMany(t: seq<byte>, strings: seq<byte>, count: nat)
    requires count == 0 || count > |t| / StructureSize
    ensures !WellFormed(t, strings, count)
  {
    StructuresLong(t, count);
  }

  lemma {:induction false} BadRequirement(t: seq<byte>, strings: seq<byte>, count: nat, i: nat)
    ensures i < count && !RequirementOk(t, strings, i, count) ==> !WellFormed(t, strings, count)
  {
  }

  // ------------------------------------------------------------ what acceptance means

  /** Both chains only move forward, by at least one structure a step. */
  lemma {:induction false} ChainMovesForward(t: seq<byte>, strings: seq<byte>, count: nat, i: nat, j: nat)
    requires WellFormed(t, strings, count) && i < j < count
    ensures RequirementAt(t, i) + StructureSize * (j - i) <= RequirementAt(t, j)
    decreases j
  {
    assert RequirementOk(t, strings, j - 1, count);
    if i < j - 1 {
      ChainMovesForward(t, strings, count, i, j - 1);
    }
  }

  lemma {:induction false} AuxiliaryChainMovesForward(t: seq<byte>, strings: seq<byte>, count: nat, i: nat,
      j: nat, k: nat)
    requires WellFormed(t, strings, count) && i < count && j < k < AuxiliaryCount(t, RequirementAt(t, i))
    ensures AuxiliaryAt(t, RequirementAt(t, i), j) + StructureSize * (k - j) <= AuxiliaryAt(t, RequirementAt(t, i), k)
    decreases k
  {
    assert RequirementOk(t, strings, i, count);
    assert AuxiliaryOk(t, strings, RequirementAt(t, i), k - 1);
    if j < k - 1 {
      AuxiliaryChainMovesForward(t, strings, count, i, j, k - 1);
    }
  }

  /** Distinct aligned structures within the table cannot exceed its work budget, so for tables whose
      entries are aligned the budget refuses nothing more. */
  lemma {:induction false} AlignedFitBudget(t: seq<byte>, trace: seq<nat>)
    requires NoRepeats(trace)
    requires forall o :: o in trace ==> o + StructureSize <= |t| && o % StructureSize == 0
    ensures |trace| <= |t| / StructureSize
  {
    var slots := seq(|trace|, k requires 0 <= k < |trace| => trace[k] / StructureSize);
    forall k | 0 <= k < |slots| ensures slots[k] < |t| / StructureSize {
      assert trace[k] in trace;
    }
    forall i, j | 0 <= i < j < |slots| ensures slots[i] != slots[j] {
      assert trace[i] in trace && trace[j] in trace;
    }
    Pigeonhole(slots, |t| / StructureSize);
  }
}
