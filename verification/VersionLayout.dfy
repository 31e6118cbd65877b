/** Version requirement tables as linkers lay them out - every requirement followed by its auxiliary
    entries, nothing in between - and the proof that the bounded walk accepts all of them
    (packaging/scripts/verify_mozc_artifact_bundle.py:541-630; Linux Standard Base Core Specification,
    section "Version Requirements"). */
module VersionLayout {
  import opened Sequences
  import opened VersionRequirements

  type word = x: int | 0 <= x < 0x1_0000_0000

  datatype Auxiliary = Auxiliary(hash: word, flagsAndOther: word, name: word)

  datatype Requirement = Requirement(file: word, auxiliaries: seq<Auxiliary>)

  /** The four words of a 16-byte structure. */
  datatype Entry = Entry(w0: word, w1: word, w2: word, w3: word)

  // ------------------------------------------------------------------------- bytes

  function WordBytes(w: word): (b: seq<byte>)
    ensures |b| == 4
  {
    [w % 0x100, w / 0x100 % 0x100, w / 0x1_0000 % 0x100, w / 0x100_0000]
  }

  function EntryBytes(e: Entry): (b: seq<byte>)
    ensures |b| == StructureSize
  {
    WordBytes(e.w0) + WordBytes(e.w1) + WordBytes(e.w2) + WordBytes(e.w3)
  }

  function Bytes(entries: seq<Entry>): (b: seq<byte>)
    ensures |b| == StructureSize * |entries|
  {
    if entries == [] then [] else Bytes(entries[..|entries| - 1]) + EntryBytes(entries[|entries| - 1])
  }

  lemma {:induction false} WordOfBytes(w: word, t: seq<byte>, offset: nat)
    requires offset + 4 <= |t| && t[offset..offset + 4] == WordBytes(w)
    ensures Half(t, offset) == w % 0x1_0000 && Half(t, offset + 2) == w / 0x1_0000 && Word(t, offset) == w
  {
    var b := t[offset..offset + 4];
    assert t[offset] == b[0] && t[offset + 1] == b[1] && t[offset + 2] == b[2] && t[offset + 3] == b[3];
    LowBytes(w);
    LowBytes(w / 0x1_0000);
    DivideTwice(w / 0x1_0000);
    HighBytes(w);
  }

  lemma {:induction false} DivideTwice(n: nat)
    ensures n / 0x100 / 0x100 == n / 0x1_0000
  {
  }

  lemma {:induction false} LowBytes(n: nat)
    ensures n % 0x100 + 0x100 * (n / 0x100 % 0x100) == n % 0x1_0000
  {
    DivideTwice(n);
  }

  lemma {:induction false} HighBytes(w: word)
    ensures w / 0x1_0000 < 0x1_0000 && w / 0x1_0000 / 0x100 == w / 0x100_0000
    ensures w % 0x1_0000 + 0x1_0000 * (w / 0x1_0000) == w
  {
  }

  lemma {:induction false} EntryAt(entries: seq<Entry>, k: nat)
    requires k < |entries|
    ensures Bytes(entries)[StructureSize * k..StructureSize * k + StructureSize] == EntryBytes(entries[k])
  {
    var n := |entries| - 1;
    var front, last := Bytes(entries[..n]), EntryBytes(entries[n]);
    assert Bytes(entries) == front + last && |front| == StructureSize * n;
    if k < n {
      EntryAt(entries[..n], k);
      assert (front + last)[StructureSize * k..StructureSize * k + StructureSize]
        == front[StructureSize * k..StructureSize * k + StructureSize];
    } else {
      assert (front + last)[StructureSize * n..StructureSize * n + StructureSize] == last;
    }
  }

  lemma {:induction false} EntryWords(e: Entry, t: seq<byte>, o: nat)
    requires o + StructureSize <= |t| && t[o..o + StructureSize] == EntryBytes(e)
    ensures t[o..o + 4] == WordBytes(e.w0) && t[o + 8..o + 12] == WordBytes(e.w2)
    ensures t[o + 12..o + 16] == WordBytes(e.w3)
  {
    hide WordBytes;
    var b := EntryBytes(e);
    assert b[..4] == WordBytes(e.w0) && b[8..12] == WordBytes(e.w2) && b[12..16] == WordBytes(e.w3);
    assert t[o..o + 4] == t[o..o + StructureSize][..4];
    assert t[o + 8..o + 12] == t[o..o + StructureSize][8..12];
    assert t[o + 12..o + 16] == t[o..o + StructureSize][12..16];
  }

  lemma {:induction false} FieldsAt(entries: seq<Entry>, k: nat)
    requires k < |entries|
    ensures var t, o, e := Bytes(entries), StructureSize * k, entries[k];
      && Half(t, o) == e.w0 % 0x1_0000 && Half(t, o + 2) == e.w0 / 0x1_0000
      && Word(t, o + 8) == e.w2 && Word(t, o + 12) == e.w3
  {
    hide Half, Word, WordBytes, Bytes, EntryBytes;
    var t, o, e := Bytes(entries), StructureSize * k, entries[k];
    EntryAt(entries, k);
    EntryWords(e, t, o);
    WordOfBytes(e.w0, t, o);
    WordOfBytes(e.w2, t, o + 8);
    WordOfBytes(e.w3, t, o + 12);
  }

  // ------------------------------------------------------------------------ layout

  function Next(last: bool, size: nat): nat {
    if last then 0 else StructureSize * size
  }

  predicate Encodable(reqs: seq<Requirement>) {
    forall i :: 0 <= i < |reqs| ==> 0 < |reqs[i].auxiliaries| < 0x1_0000
  }

  function AuxiliaryEntry(r: Requirement, j: nat): Entry
    requires j < |r.auxiliaries|
  {
    Entry(r.auxiliaries[j].hash, r.auxiliaries[j].flagsAndOther, r.auxiliaries[j].name,
          Next(j + 1 == |r.auxiliaries|, 1))
  }

  /** A requirement and its auxiliary entries. */
  function BlockEntries(r: Requirement, last: bool): (entries: seq<Entry>)
    requires 0 < |r.auxiliaries| < 0x1_0000
    ensures |entries| == 1 + |r.auxiliaries|
  {
    [Entry(RequirementVersion + 0x1_0000 * |r.auxiliaries|, r.file, StructureSize, Next(last, 1 + |r.auxiliaries|))]
    + seq(|r.auxiliaries|, j requires 0 <= j < |r.auxiliaries| => AuxiliaryEntry(r, j))
  }

  /** The entries of the first `n` requirements. */
  function Layout(reqs: seq<Requirement>, n: nat): seq<Entry>
    requires n <= |reqs| && Encodable(reqs)
  {
    if n == 0 then [] else Layout(reqs, n - 1) + BlockEntries(reqs[n - 1], n == |reqs|)
  }

  function Table(reqs: seq<Requirement>): seq<byte>
    requires Encodable(reqs)
  {
    Bytes(Layout(reqs, |reqs|))
  }

  lemma {:induction false} LayoutPrefix(reqs: seq<Requirement>, i: nat, n: nat)
    requires i <= n <= |reqs| && Encodable(reqs)
    ensures Layout(reqs, i) <= Layout(reqs, n)
  {
    if i < n { LayoutPrefix(reqs, i, n - 1); }
  }

  /** Where the entries of requirement `i` are. */
  lemma {:induction false} EntriesAt(reqs: seq<Requirement>, i: nat)
    requires i < |reqs| && Encodable(reqs)
    ensures var start, all, block := |Layout(reqs, i)|, Layout(reqs, |reqs|), BlockEntries(reqs[i], i + 1 == |reqs|);
      start + |block| <= |all| && forall k :: 0 <= k < |block| ==> all[start + k] == block[k]
  {
    LayoutPrefix(reqs, i + 1, |reqs|);
    var start, all, block := |Layout(reqs, i)|, Layout(reqs, |reqs|), BlockEntries(reqs[i], i + 1 == |reqs|);
    assert Layout(reqs, i + 1) == Layout(reqs, i) + block;
    hide Layout, BlockEntries;
    forall k | 0 <= k < |block| ensures all[start + k] == block[k] {
      assert all[start + k] == Layout(reqs, i + 1)[start + k];
    }
  }

  /** The fields of requirement `i` in the table. */
  lemma {:induction false} HeaderFields(reqs: seq<Requirement>, i: nat)
    requires i < |reqs| && Encodable(reqs)
    ensures var t, o, n := Table(reqs), StructureSize * |Layout(reqs, i)|, |reqs[i].auxiliaries|;
      && o + StructureSize * (1 + n) <= |t|
      && Half(t, o) == RequirementVersion && Half(t, o + 2) == n && Word(t, o + 8) == StructureSize
      && Word(t, o + 12) == Next(i + 1 == |reqs|, 1 + n)
  {
    hide Half, Word;
    EntriesAt(reqs, i);
    FieldsAt(Layout(reqs, |reqs|), |Layout(reqs, i)|);
    hide Layout;
    var block := BlockEntries(reqs[i], i + 1 == |reqs|);
    assert Layout(reqs, |reqs|)[|Layout(reqs, i)| + 0] == block[0];
  }

  /** The fields of its auxiliary entry `j`. */
  lemma {:induction false} AuxiliaryFields(reqs: seq<Requirement>, i: nat, j: nat)
    requires i < |reqs| && Encodable(reqs) && j < |reqs[i].auxiliaries|
    ensures var t, o := Table(reqs), StructureSize * (|Layout(reqs, i)| + 1 + j);
      && o + StructureSize <= |t|
      && Word(t, o + 8) == reqs[i].auxiliaries[j].name
      && Word(t, o + 12) == Next(j + 1 == |reqs[i].auxiliaries|, 1)
  {
    hide Half, Word;
    EntriesAt(reqs, i);
    FieldsAt(Layout(reqs, |reqs|), |Layout(reqs, i)| + 1 + j);
    hide Layout;
    var block := BlockEntries(reqs[i], i + 1 == |reqs|);
    assert Layout(reqs, |reqs|)[|Layout(reqs, i)| + (1 + j)] == block[1 + j];
  }

  // -------------------------------------------------------------------- acceptance

  lemma {:induction false} LayoutSize(reqs: seq<Requirement>, n: nat)
    requires n <= |reqs| && Encodable(reqs)
    ensures |Layout(reqs, n)| == if n == 0 then 0 else |Layout(reqs, n - 1)| + 1 + |reqs[n - 1].auxiliaries|
  {
  }

  /** The walk finds requirement `i` where the layout puts it. */
  lemma {:induction false} RequirementFound(reqs: seq<Requirement>, i: nat)
    requires i < |reqs| && Encodable(reqs)
    ensures RequirementAt(Table(reqs), i) == StructureSize * |Layout(reqs, i)|
  {
    hide Table, Word, Half, Layout;
    if i == 0 {
      LayoutSize(reqs, 0);
    } else {
      RequirementFound(reqs, i - 1);
      HeaderFields(reqs, i - 1);
      LayoutSize(reqs, i);
    }
  }

  lemma {:induction false} AuxiliaryFound(reqs: seq<Requirement>, i: nat, j: nat)
    requires i < |reqs| && Encodable(reqs) && j < |reqs[i].auxiliaries|
    ensures AuxiliaryAt(Table(reqs), StructureSize * |Layout(reqs, i)|, j)
      == StructureSize * (|Layout(reqs, i)| + 1 + j)
  {
    if j == 0 {
      HeaderFields(reqs, i);
    } else {
      AuxiliaryFound(reqs, i, j - 1);
      AuxiliaryFields(reqs, i, j - 1);
    }
  }

  /** The multiples of the structure size, in order. */
  function Aligned(n: nat): (s: seq<nat>)
    ensures |s| == n && forall k :: 0 <= k < n ==> s[k] == StructureSize * k
  {
    seq(n, k requires 0 <= k < n => StructureSize * k)
  }

  lemma {:induction false} AuxiliariesFound(reqs: seq<Requirement>, i: nat, n: nat)
    requires i < |reqs| && Encodable(reqs) && n <= |reqs[i].auxiliaries|
    ensures var start := |Layout(reqs, i)|;
      Aligned(start) + [StructureSize * start] + Auxiliaries(Table(reqs), StructureSize * start, n)
      == Aligned(start + 1 + n)
  {
    var start := |Layout(reqs, i)|;
    hide Table, Layout, AuxiliaryAt;
    if n > 0 {
      AuxiliariesFound(reqs, i, n - 1);
      AuxiliaryFound(reqs, i, n - 1);
      assert Aligned(start + 1 + n) == Aligned(start + 1 + (n - 1)) + [StructureSize * (start + n)];
    }
  }

  /** The walk's structures are all of the table, back to back. */
  lemma {:induction false} StructuresFound(reqs: seq<Requirement>, n: nat)
    requires n <= |reqs| && Encodable(reqs)
    ensures Structures(Table(reqs), n) == Aligned(|Layout(reqs, n)|)
  {
    hide Table, RequirementAt, Half, BlockEntries;
    if n > 0 {
      var i := n - 1;
      StructuresFound(reqs, i);
      BlockFound(reqs, i);
      assert |Layout(reqs, n)| == |Layout(reqs, i)| + 1 + |reqs[i].auxiliaries|;
    }
  }

  lemma {:induction false} BlockFound(reqs: seq<Requirement>, i: nat)
    requires i < |reqs| && Encodable(reqs)
    ensures var start := |Layout(reqs, i)|;
      Aligned(start) + Block(Table(reqs), RequirementAt(Table(reqs), i)) == Aligned(start + 1 + |reqs[i].auxiliaries|)
  {
    hide Table, Layout, RequirementAt, Half, Aligned, Auxiliaries;
    var start, n := |Layout(reqs, i)|, |reqs[i].auxiliaries|;
    RequirementFound(reqs, i);
    HeaderFields(reqs, i);
    AuxiliariesFound(reqs, i, n);
    var rest := Auxiliaries(Table(reqs), StructureSize * start, n);
    assert Aligned(start) + ([StructureSize * start] + rest) == Aligned(start) + [StructureSize * start] + rest;
  }

  /** Every name the layout refers to is a string of the table. */
  ghost predicate NamesExist(reqs: seq<Requirement>, strings: seq<byte>) {
    forall i, j :: 0 <= i < |reqs| && 0 <= j < |reqs[i].auxiliaries| ==>
      HasStringAt(strings, reqs[i].auxiliaries[j].name)
  }

  lemma {:induction false} RequirementAccepted(reqs: seq<Requirement>, strings: seq<byte>, i: nat)
    requires i < |reqs| && Encodable(reqs) && NamesExist(reqs, strings)
    ensures RequirementOk(Table(reqs), strings, i, |reqs|)
  {
    hide Table, Layout, Half, Word, HasStringAt;
    RequirementFound(reqs, i);
    HeaderFields(reqs, i);
    forall j | 0 <= j < |reqs[i].auxiliaries|
        ensures AuxiliaryOk(Table(reqs), strings, RequirementAt(Table(reqs), i), j)
      {
      AuxiliaryFound(reqs, i, j);
      AuxiliaryFields(reqs, i, j);
    }
  }

  /** The walk accepts every table laid out this way, whatever its size, and its versions are the names
      the layout refers to. */
  lemma {:induction false} LaidOutIsAccepted(reqs: seq<Requirement>, strings: seq<byte>, version: string)
    requires reqs != [] && Encodable(reqs) && NamesExist(reqs, strings)
    ensures WellFormed(Table(reqs), strings, |reqs|)
    ensures Named(Table(reqs), strings, |reqs|, version) <==>
      exists i, j :: 0 <= i < |reqs| && 0 <= j < |reqs[i].auxiliaries|
        && IsStringAt(strings, reqs[i].auxiliaries[j].name, version)
  {
    hide RequirementOk, HasStringAt, IsStringAt, Half, Word, RequirementAt, AuxiliaryAt, Layout;
    StructuresFound(reqs, |reqs|);
    forall i | 0 <= i < |reqs| ensures RequirementOk(Table(reqs), strings, i, |reqs|) {
      RequirementAccepted(reqs, strings, i);
    }
    forall i, j | 0 <= i < |reqs| && 0 <= j < |reqs[i].auxiliaries|
      ensures Names(Table(reqs), strings, i, j, version) <==> IsStringAt(strings, reqs[i].auxiliaries[j].name, version)
    {
      RequirementFound(reqs, i);
      AuxiliaryFound(reqs, i, j);
      AuxiliaryFields(reqs, i, j);
    }
    forall i | 0 <= i < |reqs|
      ensures AuxiliaryCount(Table(reqs), RequirementAt(Table(reqs), i)) == |reqs[i].auxiliaries|
    {
      RequirementFound(reqs, i);
      HeaderFields(reqs, i);
    }
  }
}
