/** The deterministic execution cache: outcomes keyed by a digest of everything they depend on. */
module ExecutionCache {
  import opened Options

  datatype Provenance = Fixture | LocalExecution | LiveNebius | RecordedLive

  type Digest = string

  datatype Identity = Identity(locator: string, commit: string, subpath: string, tree: Digest, retained: Digest,
                               subtracted: Digest, contract: Digest, sealed: Digest, requirement: string,
                               command: seq<string>, provenance: Provenance, runtime: Digest)

  datatype Key = Key(id: Identity, digest: Digest)

  /** What the entry digest covers. */
  datatype Content = Content(key: Key, provenance: Provenance, outcome: string, exit: Option<int>, stdout: Digest,
                             stderr: Digest, result: Digest, duration: int, created: string, fact: Digest)

  datatype Entry = Entry(content: Content, digest: Digest)

  /** SHA-256 over the canonical payload of a key and of an entry. */
  datatype Hashes = Hashes(key: Identity -> Digest, entry: Content -> Digest)

  /** What the constructor of a key accepts. */
  predicate KeyOk(h: Hashes, k: Key)
  {
    k.digest == h.key(k.id)
  }

  /** What the constructor of an entry accepts. */
  predicate EntryOk(h: Hashes, e: Entry)
  {
    KeyOk(h, e.content.key) && e.content.provenance == e.content.key.id.provenance && e.digest == h.entry(e.content)
  }

  datatype Reason =
    | MissingEntry | TamperedEntry | ContractMismatch | WitnessMismatch | SourceMismatch | PatchMismatch
    | DeltaMismatch | RequirementMismatch | CommandMismatch | RuntimeMismatch
    | ForbiddenSubstitution | ProvenanceMismatch

  datatype Result = Hit(entry: Entry) | Rejected(why: Reason)

  /** The eight identity checks, in the order of the source; locator, subpath and tree are not compared. */
  function Mismatch(a: Identity, b: Identity): Option<Reason>
  {
    if a.contract != b.contract then Some(ContractMismatch)
    else if a.sealed != b.sealed then Some(WitnessMismatch)
    else if a.commit != b.commit then Some(SourceMismatch)
    else if a.retained != b.retained then Some(PatchMismatch)
    else if a.subtracted != b.subtracted then Some(DeltaMismatch)
    else if a.requirement != b.requirement then Some(RequirementMismatch)
    else if a.command != b.command then Some(CommandMismatch)
    else if a.runtime != b.runtime then Some(RuntimeMismatch)
    else None
  }

  function Judge(h: Hashes, e: Entry, k: Key, requested: Provenance): Result
  {
    if e.digest != h.entry(e.content) then Rejected(TamperedEntry)
    else if Mismatch(e.content.key.id, k.id).Some? then Rejected(Mismatch(e.content.key.id, k.id).value)
    else if requested == LiveNebius && e.content.provenance != LiveNebius then Rejected(ForbiddenSubstitution)
    else if requested != e.content.provenance then Rejected(ProvenanceMismatch)
    else Hit(e)
  }

  function LookUp(h: Hashes, entries: map<Digest, Entry>, k: Key, requested: Option<Provenance>): Result
  {
    if k.digest !in entries then Rejected(MissingEntry)
    else Judge(h, entries[k.digest], k, requested.GetOr(k.id.provenance))
  }

  /** How many results of a kind the audit log holds. */
  function CountIn(log: seq<Result>, kind: Result -> bool): nat
  {
    if log == [] then 0 else CountIn(log[..|log| - 1], kind) + if kind(log[|log| - 1]) then 1 else 0
  }

  predicate IsHit(r: Result) { r.Hit? }
  predicate IsMiss(r: Result) { r.Rejected? && r.why == MissingEntry }
  predicate IsRejection(r: Result) { r.Rejected? && r.why != MissingEntry }

  lemma CountMore(log: seq<Result>, r: Result, kind: Result -> bool)
    ensures CountIn(log + [r], kind) == CountIn(log, kind) + if kind(r) then 1 else 0
  {
    assert (log + [r])[..|log|] == log;
  }

  /** Every lookup is a hit, a miss or a rejection. */
  lemma {:induction false} KindsPartition(log: seq<Result>)
    ensures CountIn(log, IsHit) + CountIn(log, IsMiss) + CountIn(log, IsRejection) == |log|
  {
    if log != [] {
      KindsPartition(log[..|log| - 1]);
    }
  }

  /** What a found entry must satisfy, with the reason a failure is given, in the order of the source. */
  function Tests(h: Hashes, e: Entry, k: Key, provenance: Provenance): seq<(bool, Reason)>
  {
    var a, b := e.content.key.id, k.id;
    [(e.digest == h.entry(e.content), TamperedEntry),
     (a.contract == b.contract, ContractMismatch), (a.sealed == b.sealed, WitnessMismatch),
     (a.commit == b.commit, SourceMismatch), (a.retained == b.retained, PatchMismatch),
     (a.subtracted == b.subtracted, DeltaMismatch), (a.requirement == b.requirement, RequirementMismatch),
     (a.command == b.command, CommandMismatch), (a.runtime == b.runtime, RuntimeMismatch),
     (provenance == LiveNebius ==> e.content.provenance == LiveNebius, ForbiddenSubstitution),
     (provenance == e.content.provenance, ProvenanceMismatch)]
  }

  ghost predicate FirstFailure(tests: seq<(bool, Reason)>, why: Reason)
  {
    exists i :: 0 <= i < |tests| && tests[i] == (false, why) && forall j :: 0 <= j < i ==> tests[j].0
  }

  lemma MismatchIsFirst(h: Hashes, e: Entry, k: Key, provenance: Provenance)
    requires e.digest == h.entry(e.content) && Mismatch(e.content.key.id, k.id).Some?
    ensures FirstFailure(Tests(h, e, k, provenance), Mismatch(e.content.key.id, k.id).value)
  {
    var tests, why := Tests(h, e, k, provenance), Mismatch(e.content.key.id, k.id).value;
    var i := match why
      case ContractMismatch => 1
      case WitnessMismatch => 2
      case SourceMismatch => 3
      case PatchMismatch => 4
      case DeltaMismatch => 5
      case RequirementMismatch => 6
      case CommandMismatch => 7
      case _ => 8;
    assert tests[i] == (false, why);
  }

  /** A found entry is good exactly when it is authentic, agrees on the eight compared fields and has the
      provenance asked for; otherwise the reason is that of the first test that fails. */
  method Check(h: Hashes, e: Entry, k: Key, provenance: Provenance) returns (why: Option<Reason>)
    ensures why.None? <==>
            && e.digest == h.entry(e.content) && e.content.provenance == provenance
            && e.content.key.id.(locator := k.id.locator, subpath := k.id.subpath, tree := k.id.tree,
                                 provenance := k.id.provenance) == k.id
    ensures why.Some? ==> FirstFailure(Tests(h, e, k, provenance), why.value)
    ensures Judge(h, e, k, provenance) == if why.Some? then Rejected(why.value) else Hit(e)
  {
    ghost var tests := Tests(h, e, k, provenance);
    assert |tests| == 11;
    if e.digest != h.entry(e.content) {
      assert tests[0] == (false, TamperedEntry);
      return Some(TamperedEntry);
    }
    var mismatch := Mismatch(e.content.key.id, k.id);
    if mismatch.Some? {
      MismatchIsFirst(h, e, k, provenance);
      return mismatch;
    }
    if provenance == LiveNebius && e.content.provenance != LiveNebius {
      assert tests[9] == (false, ForbiddenSubstitution);
      return Some(ForbiddenSubstitution);
    }
    if provenance != e.content.provenance {
      assert tests[10] == (false, ProvenanceMismatch);
      return Some(ProvenanceMismatch);
    }
    why := None;
  }

  class DeterministicExecutionCache {
    const hashes: Hashes
    var entries: map<Digest, Entry>
    var hits: nat
    var misses: nat
    var rejections: nat
    var log: seq<Result>

    /** The counters count the log, and stored entries are authentic and filed under their own key. */
    ghost predicate Valid()
      reads this
    {
      && hits == CountIn(log, IsHit) && misses == CountIn(log, IsMiss) && rejections == CountIn(log, IsRejection)
      && (forall d :: d in entries ==> EntryOk(hashes, entries[d]) && entries[d].content.key.digest == d)
    }

    constructor (hashes: Hashes)
      ensures Valid() && this.hashes == hashes && entries == map[] && log == []
    {
      this.hashes := hashes;
      entries := map[];
      hits, misses, rejections := 0, 0, 0;
      log := [];
    }

    method StoreEntry(e: Entry)
      requires Valid() && EntryOk(hashes, e)
      modifies this`entries
      ensures Valid()
      ensures entries == old(entries)[e.content.key.digest := e]
    {
      entries := entries[e.content.key.digest := e];
    }

    method LookupByKey(k: Key, requested: Option<Provenance>) returns (r: Result)
      requires Valid() && KeyOk(hashes, k)
      modifies this`hits, this`misses, this`rejections, this`log
      ensures Valid()
      ensures r == LookUp(hashes, entries, k, requested)
      ensures log == old(log) + [r]
      ensures hits + misses + rejections == |log|
      ensures hits == old(hits) + if r.Hit? then 1 else 0
      ensures misses == old(misses) + if r == Rejected(MissingEntry) then 1 else 0
      ensures rejections == old(rejections) + if r.Rejected? && r.why != MissingEntry then 1 else 0
    {
      CountLog();
      var provenance := requested.GetOr(k.id.provenance);
      if k.digest !in entries {
        r := Reject(MissingEntry);
        return;
      }
      var e := entries[k.digest];
      var why := Check(hashes, e, k, provenance);
      if why.Some? {
        r := Reject(why.value);
        return;
      }
      r := Hit(e);
      CountMore(log, r, IsHit);
      CountMore(log, r, IsMiss);
      CountMore(log, r, IsRejection);
      hits := hits + 1;
      log := log + [r];
    }

    method Reject(why: Reason) returns (r: Result)
      requires Valid() && hits + misses + rejections == |log|
      modifies this`misses, this`rejections, this`log
      ensures Valid() && r == Rejected(why) && log == old(log) + [r]
      ensures hits + misses + rejections == |log|
      ensures misses == old(misses) + if why == MissingEntry then 1 else 0
      ensures rejections == old(rejections) + if why == MissingEntry then 0 else 1
    {
      r := Rejected(why);
      CountMore(log, r, IsHit);
      CountMore(log, r, IsMiss);
      CountMore(log, r, IsRejection);
      if why == MissingEntry {
        misses := misses + 1;
      } else {
        rejections := rejections + 1;
      }
      log := log + [r];
    }

    lemma CountLog()
      requires Valid()
      ensures hits + misses + rejections == |log|
    {
      KindsPartition(log);
    }
  }

  // ---- The cache as a last-write map ----

  /** What is in the cache after storing entries one after the other. */
  function After(stores: seq<Entry>): map<Digest, Entry>
  {
    if stores == [] then map[]
    else
      var e := stores[|stores| - 1];
      After(stores[..|stores| - 1])[e.content.key.digest := e]
  }

  /** The latest entry stored under an identity. */
  function Latest(stores: seq<Entry>, id: Identity): Option<Entry>
  {
    if stores == [] then None
    else if stores[|stores| - 1].content.key.id == id then Some(stores[|stores| - 1])
    else Latest(stores[..|stores| - 1], id)
  }

  ghost predicate Collisionless(h: Hashes)
  {
    forall a, b :: h.key(a) == h.key(b) ==> a == b
  }

  predicate AllOk(h: Hashes, stores: seq<Entry>)
  {
    forall i :: 0 <= i < |stores| ==> EntryOk(h, stores[i])
  }

  lemma {:induction false} AfterIsLatest(h: Hashes, stores: seq<Entry>, id: Identity)
    requires Collisionless(h) && AllOk(h, stores)
    ensures Latest(stores, id).Some? <==> h.key(id) in After(stores)
    ensures Latest(stores, id).Some? ==>
              var e := Latest(stores, id).value;
              e == After(stores)[h.key(id)] && EntryOk(h, e) && e.content.key.id == id
  {
    if stores != [] {
      AfterIsLatest(h, stores[..|stores| - 1], id);
    }
  }

  /** With a collision-free digest the cache is the last-write map on identities. A lookup hits exactly
      when the identity was stored and the requested provenance is its own, and then it returns the
      latest entry; neither tampering nor a mismatch is ever reported. */
  lemma {:induction false} CacheIsLastWriteMap(h: Hashes, stores: seq<Entry>, k: Key, requested: Option<Provenance>)
    requires Collisionless(h) && AllOk(h, stores) && KeyOk(h, k)
    ensures var asked := requested.GetOr(k.id.provenance);
            LookUp(h, After(stores), k, requested)
            == match Latest(stores, k.id)
               case None => Rejected(MissingEntry)
               case Some(e) =>
                 if asked == k.id.provenance then Hit(e)
                 else if asked == LiveNebius then Rejected(ForbiddenSubstitution)
                 else Rejected(ProvenanceMismatch)
  {
    AfterIsLatest(h, stores, k.id);
  }

  /** The checks do not replace the digest: were two identities that differ only in locator, subpath or
      tree to collide, one would be answered with the outcome of the other. */
  lemma ChecksNeedTheDigest(h: Hashes, e: Entry, k: Key)
    requires EntryOk(h, e) && KeyOk(h, k) && h.key(k.id) == h.key(e.content.key.id)
    requires k.id.(locator := e.content.key.id.locator, subpath := e.content.key.id.subpath,
                   tree := e.content.key.id.tree) == e.content.key.id
    ensures LookUp(h, After([e]), k, None) == Hit(e)
  {
    assert [e][..0] == [];
    assert After([e]) == After([e][..0])[e.content.key.digest := e];
  }
}
