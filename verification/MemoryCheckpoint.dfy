/** The in-memory checkpoint store, one stream: the three dictionaries of the reference store. */
module MemoryCheckpoint {
  import opened Prelude
  import opened CheckpointChain

  /** The dictionaries that a chain amounts to. */
  ghost function ById(c: Chain): map<string, Entry> {
    if c == [] then map[] else ById(Front(c))[Last(c).desc.id := Last(c)]
  }

  ghost function ByRevision(c: Chain): map<nat, string> {
    if c == [] then map[] else ByRevision(Front(c))[Last(c).desc.revision := Last(c).desc.id]
  }

  lemma {:induction false} ByIdFinds(c: Chain, id: string)
    ensures id in ById(c) <==> Find(c, id).Some?
    ensures id in ById(c) ==> ById(c)[id] == Find(c, id).value
  {
    if c != [] {
      ByIdFinds(Front(c), id);
    }
  }

  lemma {:induction false} ByRevisionAt(sha: Sha, c: Chain)
    requires WellChained(sha, c)
    ensures forall n: nat :: n in ByRevision(c) <==> 1 <= n <= |c|
    ensures forall n: nat :: 1 <= n <= |c| ==> ByRevision(c)[n] == c[n - 1].desc.id
  {
    if c != [] {
      assert InOrder(sha, c, |c| - 1);
      WellChainedPrefix(sha, c, |c| - 1);
      ByRevisionAt(sha, Front(c));
    }
  }

  lemma {:induction false} Extended(c: Chain, e: Entry)
    ensures ById(c + [e]) == ById(c)[e.desc.id := e]
    ensures ByRevision(c + [e]) == ByRevision(c)[e.desc.revision := e.desc.id]
  {
    assert Front(c + [e]) == c;
  }

  class MemoryCheckpointStore {
    const sha: Sha
    var recordsById: map<string, Entry>
    var recordsByRevision: map<nat, string>
    var headCheckpointId: Option<string>
    ghost var chain: Chain

    ghost predicate Valid()
      reads this
    {
      && WellChained(sha, chain)
      && recordsById == ById(chain)
      && recordsByRevision == ByRevision(chain)
      && headCheckpointId == HeadId(chain)
    }

    constructor (sha: Sha)
      ensures Valid() && chain == [] && this.sha == sha
    {
      this.sha := sha;
      recordsById, recordsByRevision, headCheckpointId, chain := map[], map[], None, [];
    }

    method Save(req: WriteRequest) returns (result: Result<StoredCheckpoint, Error>)
      requires Valid()
      modifies this
      ensures Valid()
      ensures (chain, result) == ChainSave(sha, old(chain), req)
    {
      hide ById, ByRevision, Find;
      ByIdFinds(chain, req.id);
      AllDescribed(sha, chain);
      if req.id in recordsById {
        var existing := recordsById[req.id];
        if !VerifyRecord(existing) {
          assert false;
        }
        return if SameRequest(existing, req) then Ok(existing.desc) else Err(Conflict);
      }
      var revision := 1;
      if headCheckpointId.None? {
        if req.parent.Some? {
          return Err(StaleParent);
        }
      } else {
        FindAt(chain, |chain| - 1);
        assert InOrder(sha, chain, |chain| - 1);
        ByIdFinds(chain, headCheckpointId.value);
        if headCheckpointId.value !in recordsById {
          assert false;
        }
        var headRecord := recordsById[headCheckpointId.value];
        if !VerifyRecord(headRecord) {
          assert false;
        }
        if req.parent != headCheckpointId {
          return Err(StaleParent);
        }
        revision := headRecord.desc.revision + 1;
      }
      SaveKeepsHistory(sha, chain, req);
      var desc := Describe(sha, req, revision);
      recordsById := recordsById[req.id := Entry(desc, req.body)];
      recordsByRevision := recordsByRevision[revision := req.id];
      headCheckpointId := Some(req.id);
      Extended(chain, Entry(desc, req.body));
      chain := chain + [Entry(desc, req.body)];
      return Ok(desc);
    }

    predicate VerifyRecord(e: Entry) {
      e.desc.size == |e.body| && e.desc.digest == sha.body(e.body)
    }

    method LoadLatest() returns (result: Option<Entry>)
      requires Valid()
      ensures result == ChainLatest(chain)
    {
      if headCheckpointId.None? {
        return None;
      }
      FindAt(chain, |chain| - 1);
      AllDescribed(sha, chain);
      ByIdFinds(chain, headCheckpointId.value);
      if headCheckpointId.value !in recordsById {
        assert false;
      }
      var record := recordsById[headCheckpointId.value];
      if !VerifyRecord(record) {
        assert false;
      }
      return Some(record);
    }

    method LoadCheckpoint(id: string) returns (result: Result<Option<Entry>, Error>)
      requires Valid()
      ensures result == MemoryLoad(chain, id)
    {
      if !MemoryAcceptsId(id) {
        return Err(InvalidCheckpointId);
      }
      ByIdFinds(chain, id);
      AllDescribed(sha, chain);
      if id !in recordsById {
        return Ok(None);
      }
      var record := recordsById[id];
      if !VerifyRecord(record) {
        assert false;
      }
      return Ok(Some(record));
    }

    method ListForRun() returns (result: seq<StoredCheckpoint>)
      requires Valid()
      ensures result == ChainList(chain)
    {
      result := [];
      var remaining := recordsByRevision.Keys;
      assert remaining == Above(recordsByRevision, 0) by { ByRevisionAt(sha, chain); }
      while remaining != {}
        invariant |result| <= |chain|
        invariant remaining == Above(recordsByRevision, |result|)
        invariant result == ChainList(chain)[..|result|]
      {
        AboveSteps(sha, chain, |result|);
        var revision := Least(remaining);
        assert revision == |result| + 1;
        var id := recordsByRevision[revision];
        FindAt(chain, |result|);
        AllDescribed(sha, chain);
        ByIdFinds(chain, id);
        if id !in recordsById {
          assert false;
        }
        var record := recordsById[id];
        if record.desc.size != |record.body| {
          assert false;
        }
        result := result + [record.desc];
        remaining := remaining - {revision};
      }
      AboveSteps(sha, chain, |result|);
    }
  }

  ghost function Above(m: map<nat, string>, k: nat): set<nat> {
    set n | n in m && n > k
  }

  lemma AboveStep(m: map<nat, string>, k: nat)
    requires k + 1 in m
    ensures Above(m, k) == Above(m, k + 1) + {k + 1}
  {}

  lemma AboveEnd(m: map<nat, string>, k: nat)
    requires forall n :: n in m ==> n <= k
    ensures Above(m, k) == {}
  {}

  /** Taking the least remaining revision walks the chain in order. */
  lemma {:induction false} AboveSteps(sha: Sha, c: Chain, k: nat)
    requires WellChained(sha, c) && k <= |c|
    ensures k == |c| ==> Above(ByRevision(c), k) == {}
    ensures k < |c| ==>
              && k + 1 in ByRevision(c)
              && ByRevision(c)[k + 1] == c[k].desc.id
              && Above(ByRevision(c), k) == Above(ByRevision(c), k + 1) + {k + 1}
  {
    ByRevisionAt(sha, c);
    if k < |c| { AboveStep(ByRevision(c), k); } else { AboveEnd(ByRevision(c), k); }
  }

  /** The memory store only refuses empty and padded identifiers. */
  predicate MemoryAcceptsId(id: string) {
    id != "" && id[0] !in " \t\n\r" && Last(id) !in " \t\n\r"
  }

  function MemoryLoad(c: Chain, id: string): Result<Option<Entry>, Error> {
    if MemoryAcceptsId(id) then Ok(ChainLoad(c, id)) else Err(InvalidCheckpointId)
  }

  ghost predicate IsLeast(m: nat, s: set<nat>) {
    m in s && forall x :: x in s ==> m <= x
  }

  lemma {:induction false} LeastExists(s: set<nat>) returns (m: nat)
    requires s != {}
    ensures IsLeast(m, s)
    decreases |s|
  {
    m :| m in s;
    var rest := s - {m};
    assert s == rest + {m};
    if rest != {} {
      var k := LeastExists(rest);
      m := if m <= k then m else k;
    }
  }

  method Least(s: set<nat>) returns (m: nat)
    requires s != {}
    ensures IsLeast(m, s)
  {
    ghost var least := LeastExists(s);
    m :| m in s && forall x :: x in s ==> m <= x;
  }
}
