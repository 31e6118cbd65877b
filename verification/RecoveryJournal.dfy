/** The in-memory recovery journal (fcitx5-hazkey/src/hazkey_recovery_journal.cpp). */
module RecoveryJournals {
  import opened ImeProtocol
  import opened Results

  datatype JournalEntry = JournalEntry(
    requestID: RequestID, action: Action, expectedRevision: uint64, sessionID: string, sent: bool)

  /** The position of the first entry with this request ID, or the length. */
  function Index(s: seq<JournalEntry>, requestID: RequestID): (k: nat)
    ensures k <= |s|
    ensures forall i :: 0 <= i < k ==> s[i].requestID != requestID
    ensures k < |s| ==> s[k].requestID == requestID
  {
    if s == [] || s[0].requestID == requestID then 0 else 1 + Index(s[1..], requestID)
  }

  function Without(s: seq<JournalEntry>, requestID: RequestID): seq<JournalEntry> {
    if s == [] then []
    else if s[0].requestID == requestID then Without(s[1..], requestID)
    else [s[0]] + Without(s[1..], requestID)
  }

  predicate DistinctIDs(s: seq<JournalEntry>) {
    forall i, j :: 0 <= i < j < |s| ==> s[i].requestID != s[j].requestID
  }

  /** The semantic actions in recorded order. */
  function Commands(s: seq<JournalEntry>): (c: seq<Command>)
    ensures |c| == |s| && forall k :: 0 <= k < |s| ==> c[k] == s[k].action.command
  {
    seq(|s|, k requires 0 <= k < |s| => s[k].action.command)
  }

  lemma {:induction false} WithoutAbsent(s: seq<JournalEntry>, requestID: RequestID)
    requires forall k :: 0 <= k < |s| ==> s[k].requestID != requestID
    ensures Without(s, requestID) == s
  {
    if s != [] {
      WithoutAbsent(s[1..], requestID);
      assert s == [s[0]] + s[1..];
    }
  }

  /** Acknowledging the head of a duplicate-free journal drops the head and nothing else. */
  lemma {:induction false} WithoutHead(s: seq<JournalEntry>)
    requires s != [] && DistinctIDs(s)
    ensures Without(s, s[0].requestID) == s[1..]
  {
    WithoutAbsent(s[1..], s[0].requestID);
  }

  lemma {:induction false} WithoutKeepsOthers(s: seq<JournalEntry>, requestID: RequestID)
    requires DistinctIDs(s)
    ensures DistinctIDs(Without(s, requestID)) && |Without(s, requestID)| <= |s|
    ensures forall e :: e in Without(s, requestID) <==> e in s && e.requestID != requestID
  {
    if s != [] {
      WithoutKeepsOthers(s[1..], requestID);
      forall e ensures e in Without(s, requestID) <==> e in s && e.requestID != requestID {
        assert e in s <==> e == s[0] || e in s[1..];
      }
      forall e | e in Without(s[1..], requestID) ensures e.requestID != s[0].requestID {
        assert e in s[1..];
      }
    }
  }

  class RecoveryJournal {
    const limit: nat
    var pending: seq<JournalEntry>
    var lastSnapshot: Option<Snapshot>

    constructor (limit: nat)
      ensures this.limit == limit && pending == [] && lastSnapshot == None
    {
      this.limit := limit;
      pending, lastSnapshot := [], None;
    }

    ghost predicate Valid()
      reads this
    {
      DistinctIDs(pending) && |pending| <= limit
    }

    method Find(requestID: RequestID) returns (k: nat)
      ensures k == Index(pending, requestID)
    {
      k := 0;
      while k < |pending| && pending[k].requestID != requestID
        invariant 0 <= k <= |pending|
        invariant Index(pending, requestID) == k + Index(pending[k..], requestID)
      {
        k := k + 1;
      }
    }

    /** Accepts a new entry at the end, never evicting; an entry under a known ID is accepted
        only when it is the same wire binding. */
    method Record(entry: JournalEntry) returns (ok: bool)
      requires Valid()
      modifies `pending
      ensures Valid()
      ensures var k := Index(old(pending), entry.requestID);
        if k < |old(pending)| then
          && pending == old(pending)
          && (ok <==> old(pending)[k].(sent := entry.sent) == entry)
        else if |old(pending)| >= limit then !ok && pending == old(pending)
        else ok && pending == old(pending) + [entry]
    {
      var k := Find(entry.requestID);
      if k < |pending| {
        var existing := pending[k];
        return existing.action == entry.action
            && existing.expectedRevision == entry.expectedRevision
            && existing.sessionID == entry.sessionID;
      }
      if |pending| >= limit {
        return false;
      }
      pending := pending + [entry];
      return true;
    }

    /** Replaces one entry in place, unless that would duplicate another entry's ID. */
    method Replace(requestID: RequestID, entry: JournalEntry) returns (ok: bool)
      requires Valid()
      modifies `pending
      ensures Valid()
      ensures var k := Index(old(pending), requestID);
        && (ok <==> && k < |old(pending)|
                    && forall i :: 0 <= i < |old(pending)| && i != k ==>
                                     old(pending)[i].requestID != entry.requestID)
        && pending == if ok then old(pending)[k := entry] else old(pending)
    {
      var k := Find(requestID);
      if k == |pending| {
        return false;
      }
      if exists i :: 0 <= i < |pending| && i != k && pending[i].requestID == entry.requestID {
        return false;
      }
      pending := pending[k := entry];
      return true;
    }

    method MarkSent(requestID: RequestID) returns (ok: bool)
      requires Valid()
      modifies `pending
      ensures Valid()
      ensures var k := Index(old(pending), requestID);
        && (ok <==> k < |old(pending)|)
        && pending == if ok then old(pending)[k := old(pending)[k].(sent := true)] else old(pending)
    {
      var k := Find(requestID);
      if k == |pending| {
        return false;
      }
      pending := pending[k := pending[k].(sent := true)];
      return true;
    }

    /** Only a never-sent entry may inherit a later revision and session. */
    method RebaseUnsent(requestID: RequestID, action: Action, expectedRevision: uint64, sessionID: string)
      returns (ok: bool)
      requires Valid()
      modifies `pending
      ensures Valid()
      ensures var k := Index(old(pending), requestID);
        && (ok <==> k < |old(pending)| && !old(pending)[k].sent)
        && pending == if ok then old(pending)[k := JournalEntry(requestID, action, expectedRevision, sessionID, false)]
                      else old(pending)
    {
      var k := Find(requestID);
      if k == |pending| || pending[k].sent {
        return false;
      }
      pending := pending[k := pending[k].(
        action := action, expectedRevision := expectedRevision, sessionID := sessionID)];
      return true;
    }

    /** Records the binding under which a sent entry reached a replacement session. */
    method RebindSent(requestID: RequestID, action: Action, expectedRevision: uint64, sessionID: string)
      returns (ok: bool)
      requires Valid()
      modifies `pending
      ensures Valid()
      ensures var k := Index(old(pending), requestID);
        && (ok <==> k < |old(pending)| && old(pending)[k].sent)
        && pending == if ok then old(pending)[k := JournalEntry(requestID, action, expectedRevision, sessionID, true)]
                      else old(pending)
    {
      var k := Find(requestID);
      if k == |pending| || !pending[k].sent {
        return false;
      }
      pending := pending[k := pending[k].(
        action := action, expectedRevision := expectedRevision, sessionID := sessionID)];
      return true;
    }

    method Acknowledge(requestID: RequestID)
      requires Valid()
      modifies `pending
      ensures Valid()
      ensures pending == Without(old(pending), requestID)
    {
      var kept := [];
      for k := 0 to |pending|
        invariant kept + Without(pending[k..], requestID) == Without(pending, requestID)
      {
        if pending[k].requestID != requestID {
          kept := kept + [pending[k]];
        }
      }
      assert kept == Without(pending, requestID);
      WithoutKeepsOthers(pending, requestID);
      pending := kept;
    }

    method ConfirmSnapshot(snapshot: Option<Snapshot>)
      modifies `lastSnapshot
      ensures lastSnapshot == snapshot
    {
      lastSnapshot := snapshot;
    }

    method Clear()
      modifies this
      ensures pending == [] && lastSnapshot == None
    {
      lastSnapshot := None;
      pending := [];
    }
  }
}
