/**
 The artifact tables of the SQL provider: chunked writers, rechecking readers, pins, run
 removal and collection, every transaction interleaved with every other.
 */
module Artifacts {
  import opened Wrappers
  import S = MapSums

  const CHUNK_BYTES: nat := 65536

  type Content = seq<bv8>

  datatype Fault = Invalid | Denied | Conflict | Exhausted | Unavailable | Corrupt | SourceFailed

  datatype Row = Row(scope: string, mediaType: string, ready: bool, bytes: nat, chunks: nat, orphanAfter: nat, everOwned: bool)

  datatype RunRow = RunRow(scope: string, writable: bool)

  datatype Reference = Reference(id: string, scope: string, bytes: nat, mediaType: string)

  datatype Tables = Tables(
    artifacts: map<string, Row>,
    chunks: map<(string, nat), Content>,
    owners: set<(string, string)>,
    runs: map<string, RunRow>)

  /** The tables, the identifiers ever issued for artifacts and runs, and the clock. */
  datatype World = World(t: Tables, issued: set<string>, runIds: set<string>, now: nat)

  // ---------------------------------------------------------------- contents

  ghost function Sizes(artifacts: map<string, Row>): map<string, nat> {
    map id | id in artifacts :: artifacts[id].bytes
  }

  ghost function Used(t: Tables): nat {
    S.Sum(Sizes(t.artifacts))
  }

  ghost predicate HasChunks(t: Tables, id: string, n: nat) {
    forall k: nat :: k < n ==> (id, k) in t.chunks
  }

  /** The first `n` chunks of an artifact, concatenated. */
  ghost function ContentTo(t: Tables, id: string, n: nat): Content
    requires HasChunks(t, id, n)
  {
    if n == 0 then [] else ContentTo(t, id, n - 1) + t.chunks[(id, n - 1)]
  }

  ghost predicate ArtifactFits(t: Tables, id: string)
    requires id in t.artifacts
  {
    && HasChunks(t, id, t.artifacts[id].chunks)
    && (forall k: nat :: (id, k) in t.chunks ==> k < t.artifacts[id].chunks && 0 < |t.chunks[(id, k)]| <= CHUNK_BYTES)
    && t.artifacts[id].bytes == |ContentTo(t, id, t.artifacts[id].chunks)|
  }

  ghost function Stored(t: Tables, id: string): Content
    requires id in t.artifacts && ArtifactFits(t, id)
  {
    ContentTo(t, id, t.artifacts[id].chunks)
  }

  ghost predicate RowsFit(t: Tables) {
    forall id :: id in t.artifacts ==> ArtifactFits(t, id)
  }

  /** Rows, chunks and owners agree, the cap holds, and only issued identifiers appear. */
  ghost predicate Fits(w: World, cap: nat) {
    && RowsFit(w.t)
    && (forall k :: k in w.t.chunks ==> k.0 in w.t.artifacts)
    && (forall o :: o in w.t.owners ==> o.0 in w.t.artifacts && w.t.artifacts[o.0].everOwned)
    && Used(w.t) <= cap && Known(w)
  }

  /** Identifiers come from the issued ones; owners name retained runs. */
  ghost predicate Known(w: World) {
    && w.t.artifacts.Keys <= w.issued && w.t.runs.Keys <= w.runIds
    && (forall o :: o in w.t.owners ==> o.1 in w.t.runs)
  }

  predicate IsReady(t: Tables, id: string) {
    id in t.artifacts && t.artifacts[id].ready
  }

  /** The same artifact as before: row up to ownership, and every chunk. */
  ghost predicate SameArtifact(t: Tables, u: Tables, id: string) {
    && id in t.artifacts && id in u.artifacts
    && u.artifacts[id] == t.artifacts[id].(everOwned := u.artifacts[id].everOwned)
    && (forall k: nat :: (id, k) in t.chunks <==> (id, k) in u.chunks)
    && (forall k: nat :: (id, k) in t.chunks ==> u.chunks[(id, k)] == t.chunks[(id, k)])
  }

  lemma {:induction false} SameContent(t: Tables, u: Tables, id: string, n: nat)
    requires SameArtifact(t, u, id) && HasChunks(t, id, n)
    ensures HasChunks(u, id, n) && ContentTo(u, id, n) == ContentTo(t, id, n)
  {
    if n > 0 {
      SameContent(t, u, id, n - 1);
    }
  }

  lemma SameFits(t: Tables, u: Tables, id: string)
    requires SameArtifact(t, u, id) && ArtifactFits(t, id)
    ensures ArtifactFits(u, id) && Stored(u, id) == Stored(t, id)
  {
    SameContent(t, u, id, t.artifacts[id].chunks);
  }

  // ---------------------------------------------------------------- what time may do

  /**
   Published artifacts never change while they exist, are never reborn, and stay as long as
   a run that owns them is retained.
   */
  ghost predicate Evolves(w: World, u: World) {
    && w.now <= u.now && w.issued <= u.issued && w.runIds <= u.runIds
    && (forall id :: id in w.issued && id in u.t.artifacts ==> id in w.t.artifacts)
    && (forall id :: IsReady(w.t, id) && id in u.t.artifacts ==> SameArtifact(w.t, u.t, id))
    && (forall r :: r in w.runIds && r in u.t.runs ==> r in w.t.runs)
    && (forall o :: o in w.t.owners && IsReady(w.t, o.0) && o.1 in u.t.runs ==> o in u.t.owners && o.0 in u.t.artifacts)
  }

  /** A writer's own artifact is not touched by anyone else, except to be removed. */
  ghost predicate Spares(w: World, u: World, mine: string) {
    mine in u.t.artifacts ==> SameArtifact(w.t, u.t, mine)
  }

  lemma SameTransitive(t: Tables, u: Tables, v: Tables, id: string)
    requires SameArtifact(t, u, id) && SameArtifact(u, v, id)
    ensures SameArtifact(t, v, id)
  {
  }

  lemma EvolvesTransitive(a: World, b: World, c: World)
    requires Evolves(a, b) && Evolves(b, c) && Known(a)
    ensures Evolves(a, c)
  {
    forall id | IsReady(a.t, id) && id in c.t.artifacts
      ensures SameArtifact(a.t, c.t, id)
    {
      SameIsReady(a.t, b.t, id);
      SameTransitive(a.t, b.t, c.t, id);
    }
    forall o | o in a.t.owners && IsReady(a.t, o.0) && o.1 in c.t.runs
      ensures o in c.t.owners && o.0 in c.t.artifacts
    {
      SameIsReady(a.t, b.t, o.0);
    }
    hide SameArtifact;
  }

  lemma SameIsReady(t: Tables, u: Tables, id: string)
    ensures SameArtifact(t, u, id) && IsReady(t, id) ==> IsReady(u, id)
  {
  }

  lemma SparesTransitive(a: World, b: World, c: World, mine: string)
    requires Spares(a, b, mine) && Spares(b, c, mine)
    ensures Spares(a, c, mine)
  {
    if mine in c.t.artifacts {
      SameTransitive(a.t, b.t, c.t, mine);
    }
  }

  // ---------------------------------------------------------------- changing little at a time

  /** Every artifact that is still there, the excepted one aside, is as it was. */
  ghost predicate OthersSame(t: Tables, u: Tables, except: string) {
    forall a :: a in u.artifacts && a != except ==> SameArtifact(t, u, a)
  }

  lemma OthersFit(t: Tables, u: Tables, except: string)
    requires RowsFit(t) && OthersSame(t, u, except)
    requires except in u.artifacts ==> ArtifactFits(u, except)
    ensures RowsFit(u)
  {
    hide ArtifactFits, SameArtifact;
    forall a | a in u.artifacts
      ensures ArtifactFits(u, a)
    {
      if a != except {
        assert SameArtifact(t, u, a);
        assert a in t.artifacts by { SameHere(t, u, a); }
        assert ArtifactFits(t, a);
        SameFits(t, u, a);
      }
    }
  }

  lemma SameHere(t: Tables, u: Tables, a: string)
    requires SameArtifact(t, u, a)
    ensures a in t.artifacts && a in u.artifacts
    ensures u.artifacts[a] == t.artifacts[a].(everOwned := u.artifacts[a].everOwned)
  {
  }

  /** A step that changes one unpublished artifact, or only ownership, keeps the tables and the promises. */
  lemma OneChanged(w: World, u: World, except: string, cap: nat)
    requires RowsFit(w.t) && Known(w) && OthersSame(w.t, u.t, except)
    requires except in u.t.artifacts ==> ArtifactFits(u.t, except)
    requires IsReady(w.t, except) && except in u.t.artifacts ==> SameArtifact(w.t, u.t, except)
    requires forall k :: k in u.t.chunks ==> k.0 in u.t.artifacts
    requires forall o :: o in u.t.owners ==> o.0 in u.t.artifacts && u.t.artifacts[o.0].everOwned
    requires Used(u.t) <= cap && Known(u) && w.now <= u.now && w.issued <= u.issued && w.runIds <= u.runIds
    requires forall id :: id in w.issued && id in u.t.artifacts ==> id in w.t.artifacts
    requires forall r :: r in w.runIds && r in u.t.runs ==> r in w.t.runs
    requires forall o :: o in w.t.owners && IsReady(w.t, o.0) && o.1 in u.t.runs ==> o in u.t.owners
    ensures Fits(u, cap) && Evolves(w, u)
    ensures forall mine :: mine != except ==> Spares(w, u, mine)
  {
    hide ArtifactFits, SameArtifact, Used, RowsFit;
    OthersFit(w.t, u.t, except);
  }

  // ---------------------------------------------------------------- removal

  /** Rows go with their chunks and owner rows. */
  function Without(t: Tables, ids: set<string>): Tables {
    Tables(t.artifacts - ids, (map k | k in t.chunks && k.0 !in ids :: t.chunks[k]), (set o | o in t.owners && o.0 !in ids), t.runs)
  }

  lemma SizesWithout(artifacts: map<string, Row>, ids: set<string>)
    ensures S.Sum(Sizes(artifacts - ids)) <= S.Sum(Sizes(artifacts))
  {
    assert Sizes(artifacts - ids) == Sizes(artifacts) - ids;
    S.SumSubset(Sizes(artifacts), ids);
  }

  lemma WithoutSame(t: Tables, ids: set<string>, id: string)
    requires id in t.artifacts && id !in ids
    ensures SameArtifact(t, Without(t, ids), id)
  {
  }

  /** Removing artifacts no retained run may read keeps every table in step. */
  lemma WithoutFits(w: World, ids: set<string>, cap: nat)
    requires Fits(w, cap) && forall o :: o in w.t.owners && o.0 in ids ==> !IsReady(w.t, o.0)
    ensures var u := w.(t := Without(w.t, ids));
      Fits(u, cap) && Evolves(w, u) && forall mine :: mine !in ids ==> Spares(w, u, mine)
  {
    hide ArtifactFits, SameArtifact, Sizes, S.Sum;
    var u := w.(t := Without(w.t, ids));
    SizesWithout(w.t.artifacts, ids);
    forall id | id in u.t.artifacts
      ensures SameArtifact(w.t, u.t, id)
    {
      WithoutSame(w.t, ids, id);
    }
    forall id | id in u.t.artifacts
      ensures ArtifactFits(u.t, id)
    {
      SameFits(w.t, u.t, id);
    }
  }

  predicate Owned(t: Tables, id: string) {
    exists o :: o in t.owners && o.0 == id
  }

  /** What retention may take: published, and either once owned or past its grace, and owned no more. */
  function Collectable(t: Tables, now: nat): set<string> {
    set id | id in t.artifacts && t.artifacts[id].ready && (t.artifacts[id].everOwned || t.artifacts[id].orphanAfter <= now)
             && !Owned(t, id)
  }

  function Collected(w: World): World {
    w.(t := Without(w.t, Collectable(w.t, w.now)))
  }

  /** Collection never takes an artifact that a retained run owns. */
  lemma CollectedKeepsOwned(w: World, cap: nat)
    requires Fits(w, cap)
    ensures Fits(Collected(w), cap) && Evolves(w, Collected(w))
    ensures forall o :: o in w.t.owners ==> o.0 in Collected(w).t.artifacts && o in Collected(w).t.owners
    ensures forall id :: id in w.t.artifacts && !w.t.artifacts[id].ready ==> id in Collected(w).t.artifacts
    ensures forall mine :: mine in w.t.artifacts && !w.t.artifacts[mine].ready ==> Spares(w, Collected(w), mine)
  {
    forall o | o in w.t.owners
      ensures o.0 !in Collectable(w.t, w.now)
    {
      assert Owned(w.t, o.0);
    }
    WithoutFits(w, Collectable(w.t, w.now), cap);
    hide ArtifactFits, Used;
  }

  function Staging(t: Tables): set<string> {
    set id | id in t.artifacts && !t.artifacts[id].ready
  }

  // ---------------------------------------------------------------- runs and pins

  predicate Authorized(t: Tables, run: Option<string>, scope: string, writing: bool) {
    run.Some? ==> run.value in t.runs && t.runs[run.value].scope == scope && (writing ==> t.runs[run.value].writable)
  }

  function RunFault(t: Tables, run: Option<string>, scope: string): Fault {
    if run.Some? && (run.value !in t.runs || t.runs[run.value].scope != scope) then Denied else Conflict
  }

  /** A transaction for a run needs that run, in its own scope, and to write also an unfinished one. */
  predicate RunAllows(t: Tables, run: Option<string>, scope: string, writing: bool) {
    match run
    case None => true
    case Some(id) => id in t.runs && t.runs[id].scope == scope && (!writing || t.runs[id].writable)
  }

  /** The run is unknown, or of another scope: nothing about the artifact is revealed. */
  predicate RunForeign(t: Tables, run: Option<string>, scope: string) {
    match run case None => false case Some(id) => id !in t.runs || t.runs[id].scope != scope
  }

  lemma AuthorizedMeans(t: Tables, run: Option<string>, scope: string, writing: bool)
    ensures Authorized(t, run, scope, writing) <==> RunAllows(t, run, scope, writing)
    ensures RunFault(t, run, scope) == if RunForeign(t, run, scope) then Denied else Conflict
    ensures RunAllows(t, run, scope, writing) ==> !RunForeign(t, run, scope)
  {
  }

  /** Some run owns the artifact. */
  ghost predicate HasOwner(t: Tables, id: string) {
    exists run :: (id, run) in t.owners
  }

  /** Published under exactly this description, and kept: by an owner, or by its grace before the first one. */
  ghost predicate Refers(w: World, r: Reference) {
    && r.id in w.t.artifacts && w.t.artifacts[r.id].ready
    && w.t.artifacts[r.id].scope == r.scope && w.t.artifacts[r.id].mediaType == r.mediaType && w.t.artifacts[r.id].bytes == r.bytes
    && (HasOwner(w.t, r.id) || (!w.t.artifacts[r.id].everOwned && w.now < w.t.artifacts[r.id].orphanAfter))
  }

  /** Published, owned by nobody, and owned once before or past its grace. */
  ghost predicate Forgotten(w: World, id: string) {
    && id in w.t.artifacts && w.t.artifacts[id].ready && !HasOwner(w.t, id)
    && (w.t.artifacts[id].everOwned || w.t.artifacts[id].orphanAfter <= w.now)
  }

  lemma OwnedMeans(t: Tables, id: string)
    ensures Owned(t, id) <==> HasOwner(t, id)
  {
    if Owned(t, id) {
      var o :| o in t.owners && o.0 == id;
      assert (id, o.1) in t.owners;
    }
    if run :| (id, run) in t.owners {
      assert (id, run).0 == id;
    }
  }

  lemma ReferencesMean(w: World, r: Reference)
    ensures References(w, r) <==> Refers(w, r)
  {
    OwnedMeans(w.t, r.id);
    hide Owned, HasOwner;
  }

  /** The artifacts a collection would keep. */
  ghost function Remembered(w: World): set<string> {
    set id | id in w.t.artifacts && !Forgotten(w, id)
  }

  lemma RememberedAfter(w: World, u: World)
    requires forall id :: id in u.t.artifacts <==> id in w.t.artifacts && !Forgotten(w, id)
    ensures u.t.artifacts.Keys == Remembered(w) && |u.t.artifacts| == |Remembered(w)|
  {
    hide Forgotten;
    assert u.t.artifacts.Keys == Remembered(w);
    assert |u.t.artifacts| == |u.t.artifacts.Keys|;
  }

  lemma TablesAgree(w: World, cap: nat)
    requires Fits(w, cap)
    ensures forall k :: k in w.t.chunks ==> k.0 in w.t.artifacts
    ensures forall o :: o in w.t.owners ==> o.0 in w.t.artifacts
  {
    hide RowsFit, Used, Known;
  }

  /** Collection takes exactly what is forgotten, with its content, and leaves runs and owners alone. */
  lemma CollectedMeans(w: World)
    requires forall k :: k in w.t.chunks ==> k.0 in w.t.artifacts
    requires forall o :: o in w.t.owners ==> o.0 in w.t.artifacts
    ensures var u := Collected(w);
      && (forall id :: id in u.t.artifacts <==> id in w.t.artifacts && !Forgotten(w, id))
      && (forall id :: id in u.t.artifacts ==> u.t.artifacts[id] == w.t.artifacts[id])
      && (forall k :: k in u.t.chunks <==> k in w.t.chunks && !Forgotten(w, k.0))
      && (forall k :: k in u.t.chunks ==> u.t.chunks[k] == w.t.chunks[k])
      && u.t.owners == w.t.owners && u.t.runs == w.t.runs && u.issued == w.issued && u.runIds == w.runIds && u.now == w.now
  {
    forall id
      ensures id in Collectable(w.t, w.now) <==> Forgotten(w, id)
    {
      OwnedMeans(w.t, id);
    }
    forall o | o in w.t.owners
      ensures o.0 !in Collectable(w.t, w.now)
    {
      assert Owned(w.t, o.0);
    }
    hide Forgotten, Collectable, Owned, HasOwner;
  }

  /** A reference names a published artifact that is owned, or fresh and never owned. */
  predicate References(w: World, r: Reference) {
    && r.id in w.t.artifacts
    && var row := w.t.artifacts[r.id];
       && row.scope == r.scope && row.mediaType == r.mediaType && row.bytes == r.bytes && row.ready
       && (Owned(w.t, r.id) || (!row.everOwned && row.orphanAfter > w.now))
  }

  function Pinned(w: World, id: string, run: string): World
    requires id in w.t.artifacts
  {
    w.(t := w.t.(owners := w.t.owners + {(id, run)}, artifacts := w.t.artifacts[id := w.t.artifacts[id].(everOwned := true)]))
  }

  lemma PinnedFits(w: World, id: string, run: string, cap: nat)
    requires Fits(w, cap) && id in w.t.artifacts && run in w.t.runs
    ensures Fits(Pinned(w, id, run), cap) && Evolves(w, Pinned(w, id, run))
    ensures forall mine :: Spares(w, Pinned(w, id, run), mine)
  {
    hide ArtifactFits, SameArtifact, Used, Evolves, Spares;
    var u := Pinned(w, id, run);
    PinnedSame(w, id, run);
    PinnedSpares(w, id, run);
    assert RowsFit(w.t);
    SameFits(w.t, u.t, id);
    OneChanged(w, u, id, cap);
  }

  lemma PinnedSame(w: World, id: string, run: string)
    requires id in w.t.artifacts
    ensures OthersSame(w.t, Pinned(w, id, run).t, id) && SameArtifact(w.t, Pinned(w, id, run).t, id)
    ensures Used(Pinned(w, id, run).t) == Used(w.t)
  {
    assert Sizes(Pinned(w, id, run).t.artifacts) == Sizes(w.t.artifacts);
  }

  lemma PinnedSpares(w: World, id: string, run: string)
    requires id in w.t.artifacts
    ensures Spares(w, Pinned(w, id, run), id)
  {
  }

  /** Removing a run removes its ownership. */
  function WithoutRun(w: World, run: string): World {
    w.(t := w.t.(runs := w.t.runs - {run}, owners := set o | o in w.t.owners && o.1 != run))
  }

  lemma RunsFit(w: World, u: World, cap: nat)
    requires Fits(w, cap) && u.t.artifacts == w.t.artifacts && u.t.chunks == w.t.chunks && u.t.owners <= w.t.owners
    requires w.now <= u.now && u.issued == w.issued && w.runIds <= u.runIds && Known(u)
    requires forall r :: r in w.runIds && r in u.t.runs ==> r in w.t.runs
    requires forall o :: o in w.t.owners && o.1 in u.t.runs ==> o in u.t.owners
    ensures Fits(u, cap) && Evolves(w, u) && forall mine :: Spares(w, u, mine)
  {
    UntouchedSame(w.t, u.t);
    hide ArtifactFits, SameArtifact, Used;
    OneChanged(w, u, "", cap);
  }

  lemma UntouchedSame(t: Tables, u: Tables)
    requires u.artifacts == t.artifacts && u.chunks == t.chunks
    ensures forall a :: a in t.artifacts ==> SameArtifact(t, u, a)
    ensures RowsFit(t) ==> RowsFit(u)
  {
    if RowsFit(t) {
      forall a | a in t.artifacts
        ensures ArtifactFits(u, a)
      {
        SameFits(t, u, a);
      }
    }
  }

  // ---------------------------------------------------------------- writing

  function Begun(w: World, r: Reference, run: Option<string>, expires: nat): World {
    w.(t := w.t.(artifacts := w.t.artifacts[r.id := Row(r.scope, r.mediaType, false, 0, 0, expires, run.Some?)],
                 owners := if run.Some? then w.t.owners + {(r.id, run.value)} else w.t.owners),
       issued := w.issued + {r.id})
  }

  lemma BegunFits(w: World, r: Reference, run: Option<string>, expires: nat, cap: nat)
    requires Fits(w, cap) && r.id !in w.issued && (run.Some? ==> run.value in w.t.runs)
    ensures var u := Begun(w, r, run, expires);
      && Fits(u, cap) && Evolves(w, u) && Stored(u.t, r.id) == []
      && forall mine :: mine != r.id ==> Spares(w, u, mine)
  {
    var u := Begun(w, r, run, expires);
    BegunOne(w, r, run, expires, cap);
    hide ArtifactFits, SameArtifact, Used, Sizes;
    OneChanged(w, u, r.id, cap);
  }

  lemma BegunRow(w: World, r: Reference, run: Option<string>, expires: nat)
    ensures var u := Begun(w, r, run, expires);
      && u.t.artifacts == w.t.artifacts[r.id := Row(r.scope, r.mediaType, false, 0, 0, expires, run.Some?)]
      && u.t.artifacts.Keys == w.t.artifacts.Keys + {r.id}
      && u.t.owners == w.t.owners + (if run.Some? then {(r.id, run.value)} else {})
      && r.id in u.issued && Expects(u.t, r.id, 0, 0)
  {
  }

  lemma BegunOne(w: World, r: Reference, run: Option<string>, expires: nat, cap: nat)
    requires Fits(w, cap) && r.id !in w.issued
    ensures var u := Begun(w, r, run, expires);
      OthersSame(w.t, u.t, r.id) && ArtifactFits(u.t, r.id) && Stored(u.t, r.id) == [] && Used(u.t) == Used(w.t)
  {
    hide ArtifactFits, SameArtifact, Used, Begun;
    assert r.id !in w.t.artifacts;
    assert forall k :: k in w.t.chunks ==> k.0 != r.id;
    BegunEmpty(w, r, run, expires);
    BegunSum(w, r, run, expires);
  }

  lemma BegunEmpty(w: World, r: Reference, run: Option<string>, expires: nat)
    requires r.id !in w.t.artifacts && forall k :: k in w.t.chunks ==> k.0 != r.id
    ensures var u := Begun(w, r, run, expires);
      OthersSame(w.t, u.t, r.id) && r.id in u.t.artifacts && ArtifactFits(u.t, r.id) && Stored(u.t, r.id) == []
  {
    assert forall k: nat :: (r.id, k) in w.t.chunks ==> (r.id, k).0 != r.id;
  }

  lemma BegunSum(w: World, r: Reference, run: Option<string>, expires: nat)
    requires r.id !in w.t.artifacts
    ensures Used(Begun(w, r, run, expires).t) == Used(w.t)
  {
    SizeAdded(w.t.artifacts, r.id, Begun(w, r, run, expires).t.artifacts[r.id]);
  }

  function Appended(w: World, id: string, data: Content): World
    requires id in w.t.artifacts
  {
    var row := w.t.artifacts[id];
    w.(t := w.t.(artifacts := w.t.artifacts[id := row.(bytes := row.bytes + |data|, chunks := row.chunks + 1)],
                 chunks := w.t.chunks[(id, row.chunks) := data]))
  }

  lemma AppendedFits(w: World, id: string, data: Content, cap: nat)
    requires Fits(w, cap) && id in w.t.artifacts && !w.t.artifacts[id].ready
    requires 0 < |data| <= CHUNK_BYTES && Used(w.t) + |data| <= cap
    ensures var u := Appended(w, id, data);
      && Fits(u, cap) && Evolves(w, u) && Stored(u.t, id) == Stored(w.t, id) + data
      && forall mine :: mine != id ==> Spares(w, u, mine)
  {
    var u := Appended(w, id, data);
    AppendedOne(w, id, data, cap);
    AppendedSum(w, id, data);
    hide ArtifactFits, SameArtifact, Used, Sizes, Stored;
    OneChanged(w, u, id, cap);
  }

  lemma AppendedSum(w: World, id: string, data: Content)
    requires id in w.t.artifacts
    ensures Used(Appended(w, id, data).t) == Used(w.t) + |data|
  {
    var u := Appended(w, id, data);
    assert Sizes(u.t.artifacts) == Sizes(w.t.artifacts)[id := u.t.artifacts[id].bytes];
    S.SumUpdate(Sizes(w.t.artifacts), id, u.t.artifacts[id].bytes);
  }

  lemma AppendedOne(w: World, id: string, data: Content, cap: nat)
    requires Fits(w, cap) && id in w.t.artifacts && 0 < |data| <= CHUNK_BYTES
    ensures var u := Appended(w, id, data);
      OthersSame(w.t, u.t, id) && ArtifactFits(u.t, id) && Stored(u.t, id) == Stored(w.t, id) + data
  {
    hide Used, Known;
    var n := w.t.artifacts[id].chunks;
    assert ArtifactFits(w.t, id);
    AppendedContent(w, id, data, n);
  }

  lemma {:induction false} AppendedContent(w: World, id: string, data: Content, n: nat)
    requires id in w.t.artifacts && n <= w.t.artifacts[id].chunks && HasChunks(w.t, id, w.t.artifacts[id].chunks)
    requires !((id, w.t.artifacts[id].chunks) in w.t.chunks)
    ensures HasChunks(Appended(w, id, data).t, id, n) && ContentTo(Appended(w, id, data).t, id, n) == ContentTo(w.t, id, n)
  {
    if n > 0 {
      AppendedContent(w, id, data, n - 1);
    }
  }

  function Published(w: World, id: string, expires: nat): World
    requires id in w.t.artifacts
  {
    w.(t := w.t.(artifacts := w.t.artifacts[id := w.t.artifacts[id].(ready := true, orphanAfter := expires)]))
  }

  lemma PublishedFits(w: World, id: string, expires: nat, cap: nat)
    requires Fits(w, cap) && id in w.t.artifacts && !w.t.artifacts[id].ready
    ensures var u := Published(w, id, expires);
      && Fits(u, cap) && Evolves(w, u) && Stored(u.t, id) == Stored(w.t, id)
      && IsReady(u.t, id) && u.t.artifacts[id].bytes == w.t.artifacts[id].bytes
      && forall mine :: mine != id ==> Spares(w, u, mine)
  {
    var u := Published(w, id, expires);
    PublishedOne(w, id, expires, cap);
    hide ArtifactFits, SameArtifact, Used, Sizes, Stored;
    OneChanged(w, u, id, cap);
  }

  lemma PublishedOne(w: World, id: string, expires: nat, cap: nat)
    requires Fits(w, cap) && id in w.t.artifacts
    ensures var u := Published(w, id, expires);
      OthersSame(w.t, u.t, id) && ArtifactFits(u.t, id) && Stored(u.t, id) == Stored(w.t, id) && Used(u.t) == Used(w.t)
  {
    hide Known, S.Sum;
    assert ArtifactFits(w.t, id);
    assert Sizes(Published(w, id, expires).t.artifacts) == Sizes(w.t.artifacts);
    SameChunks(w.t, Published(w, id, expires).t, id, w.t.artifacts[id].chunks);
  }

  /** A published artifact of this size. */
  predicate ReadyWith(t: Tables, id: string, bytes: nat) {
    IsReady(t, id) && t.artifacts[id].bytes == bytes
  }

  lemma PublishedRow(w: World, id: string, expires: nat)
    ensures id in w.t.artifacts ==>
      var u := Published(w, id, expires);
      && u.t.artifacts == w.t.artifacts[id := w.t.artifacts[id].(ready := true, orphanAfter := expires)]
      && u.t.artifacts.Keys == w.t.artifacts.Keys && u.t.owners == w.t.owners
  {
  }

  lemma PublishedWhenExpected(w: World, id: string, bytes: nat, sequence: nat, expires: nat, cap: nat)
    requires Fits(w, cap) && Expects(w.t, id, bytes, sequence)
    ensures id in w.t.artifacts
    ensures var u := Published(w, id, expires);
      && Fits(u, cap) && Evolves(w, u) && ReadyWith(u.t, id, bytes) && Stored(u.t, id) == Stored(w.t, id)
      && forall mine :: mine != id ==> Spares(w, u, mine)
  {
    PublishedFits(w, id, expires, cap);
    hide Fits, Evolves, Spares, Published, Stored, ArtifactFits;
  }

  lemma {:induction false} SameChunks(t: Tables, u: Tables, id: string, n: nat)
    requires u.chunks == t.chunks && HasChunks(t, id, n)
    ensures HasChunks(u, id, n) && ContentTo(u, id, n) == ContentTo(t, id, n)
  {
    if n > 0 {
      SameChunks(t, u, id, n - 1);
    }
  }

  // ---------------------------------------------------------------- the provider

  predicate Staged(t: Tables, id: string) {
    id in t.artifacts && !t.artifacts[id].ready
  }

  /** The compare-and-swap test of an append or a publication. */
  predicate Expects(t: Tables, id: string, bytes: nat, chunks: nat) {
    Staged(t, id) && t.artifacts[id].bytes == bytes && t.artifacts[id].chunks == chunks
  }

  lemma KnownOf(w: World, cap: nat)
    requires Fits(w, cap)
    ensures Known(w)
  {
  }

  method SumBytes(artifacts: map<string, Row>) returns (total: nat)
    ensures total == S.Sum(Sizes(artifacts))
  {
    hide Sizes, S.Sum;
    total := 0;
    var left := artifacts.Keys;
    ghost var done: map<string, Row> := map[];
    NoSizes();
    while left != {}
      invariant left <= artifacts.Keys && done.Keys == artifacts.Keys - left
      invariant forall id :: id in done ==> done[id] == artifacts[id]
      invariant total == S.Sum(Sizes(done))
      decreases left
    {
      var id :| id in left;
      SizeAdded(done, id, artifacts[id]);
      total := total + artifacts[id].bytes;
      left := left - {id};
      done := done[id := artifacts[id]];
    }
    assert done == artifacts;
  }

  lemma NoSizes()
    ensures S.Sum(Sizes(map[])) == 0
  {
    S.SumEmpty(Sizes(map[]));
  }

  lemma SizeAdded(artifacts: map<string, Row>, id: string, row: Row)
    requires id !in artifacts
    ensures S.Sum(Sizes(artifacts[id := row])) == S.Sum(Sizes(artifacts)) + row.bytes
  {
    assert Sizes(artifacts[id := row]) == Sizes(artifacts)[id := row.bytes];
    S.SumUpdate(Sizes(artifacts), id, row.bytes);
  }

  lemma EvolvesSelf(w: World)
    requires Known(w)
    ensures Evolves(w, w)
    ensures forall mine :: Spares(w, w, mine)
  {
  }

  lemma SparedSelf(w: World)
    ensures AllSpared(w, w)
  {
  }

  ghost predicate AllSpared(w: World, u: World) {
    forall mine :: mine in w.t.artifacts ==> Spares(w, u, mine)
  }

  /** The first references are pinned to the run. */
  ghost predicate PinsDone(u: World, run: string, scope: string, references: seq<Reference>, i: nat) {
    i <= |references| && forall j :: 0 <= j < i ==>
      references[j].scope == scope && IsReady(u.t, references[j].id) && (references[j].id, run) in u.t.owners
  }

  lemma NothingPinned(u: World, run: string, scope: string, references: seq<Reference>)
    ensures PinsDone(u, run, scope, references, 0)
  {
  }

  lemma PinStep(w: World, tx: World, run: string, scope: string, references: seq<Reference>, i: nat, cap: nat)
    requires Fits(tx, cap) && Known(w) && Evolves(w, tx) && run in tx.t.runs && AllSpared(w, tx) && i < |references|
    requires PinsDone(tx, run, scope, references, i) && references[i].scope == scope && References(tx, references[i])
    ensures var u := Pinned(tx, references[i].id, run);
      Fits(u, cap) && Evolves(w, u) && run in u.t.runs && AllSpared(w, u) && PinsDone(u, run, scope, references, i + 1)
  {
    hide Fits, Evolves, Spares, Known, Pinned, References, PinsDone;
    PinKept(tx, run, scope, references, i);
    var u := Pinned(tx, references[i].id, run);
    PinnedFits(tx, references[i].id, run, cap);
    EvolvesTransitive(w, tx, u);
    forall mine | mine in w.t.artifacts
      ensures Spares(w, u, mine)
    {
      SparesTransitive(w, tx, u, mine);
    }
  }

  /** The same references are good in both. */
  ghost predicate SameReferences(w: World, u: World) {
    forall r: Reference :: Refers(w, r) <==> Refers(u, r)
  }

  lemma SameReference(w: World, u: World, r: Reference)
    requires SameReferences(w, u)
    ensures Refers(w, r) <==> Refers(u, r)
  {
  }

  /** The first references became the run's, and nobody's ownership changed otherwise. */
  ghost predicate OwnedBy(w: World, u: World, run: string, references: seq<Reference>, n: nat) {
    n <= |references| && forall o :: o in u.t.owners <==> o in w.t.owners || (o.1 == run && exists i :: 0 <= i < n && references[i].id == o.0)
  }

  lemma NothingOwned(w: World, run: string, references: seq<Reference>)
    ensures OwnedBy(w, w, run, references, 0) && SameReferences(w, w)
  {
  }

  /** Pinning a good reference makes no other reference good or bad. */
  lemma PinKeepsReferences(w: World, tx: World, pinned: Reference, run: string)
    requires SameReferences(w, tx) && Refers(tx, pinned)
    ensures pinned.id in tx.t.artifacts && SameReferences(w, Pinned(tx, pinned.id, run))
  {
    var u := Pinned(tx, pinned.id, run);
    forall r: Reference
      ensures Refers(tx, r) <==> Refers(u, r)
    {
      assert (pinned.id, run) in u.t.owners;
      assert HasOwner(tx.t, r.id) ==> HasOwner(u.t, r.id);
      assert r.id != pinned.id && HasOwner(u.t, r.id) ==> HasOwner(tx.t, r.id);
    }
    forall r: Reference
      ensures Refers(w, r) <==> Refers(u, r)
    {
      SameReference(w, tx, r);
    }
  }

  lemma PinOwns(w: World, tx: World, run: string, references: seq<Reference>, i: nat)
    requires i < |references| && references[i].id in tx.t.artifacts && OwnedBy(w, tx, run, references, i)
    ensures OwnedBy(w, Pinned(tx, references[i].id, run), run, references, i + 1)
  {
  }

  lemma PinKept(tx: World, run: string, scope: string, references: seq<Reference>, i: nat)
    requires i < |references| && PinsDone(tx, run, scope, references, i) && run in tx.t.runs
    requires references[i].scope == scope && References(tx, references[i])
    ensures references[i].id in tx.t.artifacts
    ensures var u := Pinned(tx, references[i].id, run); PinsDone(u, run, scope, references, i + 1) && run in u.t.runs
  {
  }

  lemma AllPinned(w: World, tx: World, run: string, scope: string, references: seq<Reference>)
    requires PinsDone(tx, run, scope, references, |references|) && AllSpared(w, tx)
    ensures forall i :: 0 <= i < |references| ==>
      references[i].scope == scope && IsReady(tx.t, references[i].id) && (references[i].id, run) in tx.t.owners
    ensures forall mine :: mine in w.t.artifacts ==> Spares(w, tx, mine)
  {
    hide Spares;
  }

  /** Two stretches of other people's work are one. */
  lemma Joined(a: World, b: World, c: World, mine: string, cap: nat)
    requires Known(a) && Evolves(a, b) && Evolves(b, c)
    requires Staged(a.t, mine) ==> Spares(a, b, mine) && (mine in b.t.artifacts ==> Staged(b.t, mine))
    requires Staged(b.t, mine) ==> Spares(b, c, mine)
    requires mine in a.issued
    ensures Evolves(a, c)
    ensures Staged(a.t, mine) ==> Spares(a, c, mine) && (mine in c.t.artifacts ==> Staged(c.t, mine))
  {
    EvolvesTransitive(a, b, c);
    if Staged(a.t, mine) && mine in c.t.artifacts {
      assert mine in b.t.artifacts;
      SparesTransitive(a, b, c, mine);
    }
  }

  // ---------------------------------------------------------------- writing and reading

  type Source = seq<Result<Content, Fault>>

  /** Everything the source produced without failing, in order. */
  ghost predicate Delivers(source: Source) {
    forall i :: 0 <= i < |source| ==> source[i].Ok?
  }

  ghost function Produced(source: Source): Content
    requires Delivers(source)
  {
    if source == [] then [] else Produced(source[..|source| - 1]) + source[|source| - 1].value
  }

  /** A published artifact with this content. */
  ghost predicate Contains(t: Tables, id: string, content: Content) {
    IsReady(t, id) && ArtifactFits(t, id) && Stored(t, id) == content && t.artifacts[id].bytes == |content|
  }

  /** What a writer knows of its artifact: gone, or unpublished and holding what it appended. */
  ghost predicate Holding(t: Tables, id: string, sequence: nat, written: Content) {
    id in t.artifacts ==> ArtifactFits(t, id) && Expects(t, id, |written|, sequence) && Stored(t, id) == written
  }

  lemma HoldingKept(w: World, u: World, id: string, sequence: nat, written: Content)
    requires Holding(w.t, id, sequence, written) && id in w.issued && Evolves(w, u)
    requires Staged(w.t, id) ==> Spares(w, u, id)
    ensures Holding(u.t, id, sequence, written)
  {
    if id in u.t.artifacts {
      SameFits(w.t, u.t, id);
    }
  }

  lemma HoldingGrows(w: World, u: World, id: string, sequence: nat, written: Content, data: Content, cap: nat)
    requires Holding(w.t, id, sequence, written) && Fits(w, cap) && Fits(u, cap)
    requires Expects(w.t, id, |written|, sequence) && Expects(u.t, id, |written| + |data|, sequence + 1)
    requires Stored(u.t, id) == Stored(w.t, id) + data
    ensures Holding(u.t, id, sequence + 1, written + data)
  {
  }

  lemma HoldingStart(w: World, id: string, cap: nat)
    requires Fits(w, cap) && Expects(w.t, id, 0, 0) && Stored(w.t, id) == []
    ensures Holding(w.t, id, 0, [])
  {
  }

  lemma HoldingUnpublished(t: Tables, id: string, sequence: nat, written: Content)
    requires Holding(t, id, sequence, written)
    ensures !IsReady(t, id)
  {
  }

  lemma ProducedStep(source: Source, n: nat)
    requires n < |source| && Delivers(source[..n]) && source[n].Ok?
    ensures Delivers(source[..n + 1]) && Produced(source[..n + 1]) == Produced(source[..n]) + source[n].value
  {
    assert source[..n + 1][..n] == source[..n];
  }

  lemma ProducedNothing(source: Source)
    ensures Delivers(source[..0]) && Produced(source[..0]) == []
  {
  }

  lemma Sliced(front: Content, chunk: Content, i: nat, j: nat)
    requires i <= j <= |chunk|
    ensures front + chunk[..i] + chunk[i..j] == front + chunk[..j]
  {
  }

  lemma {:induction false} ContentGrows(t: Tables, id: string, n: nat, m: nat)
    requires n <= m && HasChunks(t, id, m)
    ensures |ContentTo(t, id, n)| <= |ContentTo(t, id, m)|
    decreases m
  {
    if n < m {
      ContentGrows(t, id, n, m - 1);
    }
  }

  /** The prefix a reader has collected of an artifact as it first saw it. */
  ghost predicate ReadTo(t: Tables, id: string, n: nat, data: Content) {
    id in t.artifacts && ArtifactFits(t, id) && n <= t.artifacts[id].chunks && data == ContentTo(t, id, n)
  }

  /** The next chunk is there, unchanged, and every size test on it passes. */
  lemma ReadStep(w: World, u: World, id: string, n: nat, data: Content)
    requires ReadTo(w.t, id, n, data) && n < w.t.artifacts[id].chunks
    requires IsReady(w.t, id) && id in u.t.artifacts && Evolves(w, u)
    ensures (id, n) in u.t.chunks && 0 < |u.t.chunks[(id, n)]| <= CHUNK_BYTES
    ensures |u.t.chunks[(id, n)]| <= w.t.artifacts[id].bytes - |data|
    ensures ReadTo(w.t, id, n + 1, data + u.t.chunks[(id, n)])
  {
    ContentGrows(w.t, id, n + 1, w.t.artifacts[id].chunks);
  }

  lemma ReadWhole(t: Tables, id: string, n: nat, data: Content)
    requires ReadTo(t, id, n, data) && n == t.artifacts[id].chunks
    ensures ArtifactFits(t, id) && data == Stored(t, id) && |data| == t.artifacts[id].bytes
  {
  }

  lemma ReadNothing(w: World, id: string, cap: nat)
    requires Fits(w, cap) && id in w.t.artifacts
    ensures ReadTo(w.t, id, 0, []) && id in w.issued && Known(w) && Evolves(w, w)
  {
    EvolvesSelf(w);
  }

  class ArtifactStore {
    const cap: nat
    const limit: nat
    const maxArtifacts: nat
    const grace: nat
    var w: World

    ghost predicate Valid()
      reads this
    {
      Fits(w, cap) && 1 <= limit <= CHUNK_BYTES
    }

    constructor (cap: nat, limit: nat, maxArtifacts: nat, grace: nat)
      requires 1 <= limit <= CHUNK_BYTES
      ensures Valid() && this.cap == cap && this.limit == limit
    {
      this.cap, this.limit, this.maxArtifacts, this.grace := cap, limit, maxArtifacts, grace;
      w := World(Tables(map[], map[], {}, map[]), {}, {}, 0);
      S.SumEmpty<string>(map[]);
      assert Sizes(map[]) == map[];
    }

    method UsedBytes() returns (total: nat)
      ensures total == Used(w.t)
    {
      total := SumBytes(w.t.artifacts);
    }

    /** Collection first, then the row and, for a run, its owner. */
    method Begin(r: Reference, run: Option<string>) returns (ok: Result<(), Fault>)
      requires Valid() && r.id !in w.issued
      modifies this`w
      ensures Valid() && Evolves(old(w), w)
      ensures ok.Err? ==> w == old(w)
      ensures ok.Ok? ==> r.id in w.issued && Expects(w.t, r.id, 0, 0) && Stored(w.t, r.id) == []
      ensures ok.Ok? <==> RunAllows(old(w).t, run, r.scope, true) && |Remembered(old(w))| < maxArtifacts
      ensures ok == Err(Denied) <==> RunForeign(old(w).t, run, r.scope)
      ensures ok.Ok? ==>
        && w.t.artifacts[r.id] == Row(r.scope, r.mediaType, false, 0, 0, old(w).now + grace, run.Some?)
        && w.t.owners == old(w).t.owners + (if run.Some? then {(r.id, run.value)} else {})
        && w.t.artifacts.Keys == Remembered(old(w)) + {r.id}
      ensures forall mine :: mine != r.id && Staged(old(w).t, mine) ==> Spares(old(w), w, mine)
    {
      hide Fits, Evolves, Spares, ArtifactFits, Collected, Forgotten, Remembered, Authorized, RunFault, Begun, Expects, Stored;
      KnownOf(w, cap);
      EvolvesSelf(w);
      TablesAgree(w, cap);
      CollectedMeans(w);
      RememberedAfter(w, Collected(w));
      AuthorizedMeans(Collected(w).t, run, r.scope, true);
      var collected := Collected(w);
      CollectedKeepsOwned(w, cap);
      if !Authorized(collected.t, run, r.scope, true) {
        return Err(RunFault(collected.t, run, r.scope));
      }
      if |collected.t.artifacts| >= maxArtifacts {
        return Err(Exhausted);
      }
      var begun := Begun(collected, r, run, w.now + grace);
      BegunFits(collected, r, run, w.now + grace, cap);
      BegunRow(collected, r, run, w.now + grace);
      EvolvesTransitive(w, collected, begun);
      forall mine | mine != r.id && Staged(w.t, mine)
        ensures Spares(w, begun, mine)
      {
        SparesTransitive(w, collected, begun, mine);
      }
      w := begun;
      return Ok(());
    }

    /** One chunk, appended only where the writer left off and only within the cap. */
    method Append(r: Reference, run: Option<string>, bytes: nat, sequence: nat, data: Content) returns (ok: Result<(), Fault>)
      requires Valid() && 0 < |data| <= CHUNK_BYTES
      modifies this`w
      ensures Valid() && Evolves(old(w), w)
      ensures ok.Err? ==> w == old(w)
      ensures ok.Ok? ==>
        && Expects(old(w).t, r.id, bytes, sequence) && Expects(w.t, r.id, bytes + |data|, sequence + 1)
        && Stored(w.t, r.id) == Stored(old(w).t, r.id) + data
      ensures ok.Ok? <==>
        && RunAllows(old(w).t, run, r.scope, true) && Used(old(w).t) + |data| <= cap && Expects(old(w).t, r.id, bytes, sequence)
      ensures ok == Err(Denied) <==> RunForeign(old(w).t, run, r.scope)
      ensures w.t.artifacts.Keys == old(w).t.artifacts.Keys && w.t.owners == old(w).t.owners && w.t.runs == old(w).t.runs
      ensures forall mine :: mine != r.id ==> Spares(old(w), w, mine)
    {
      EvolvesSelf(w);
      AuthorizedMeans(w.t, run, r.scope, true);
      hide Fits, Evolves, Spares, ArtifactFits, Stored, Authorized, RunFault, Used;
      if !Authorized(w.t, run, r.scope, true) {
        return Err(RunFault(w.t, run, r.scope));
      }
      var used := UsedBytes();
      if used + |data| > cap {
        return Err(Exhausted);
      }
      if !Expects(w.t, r.id, bytes, sequence) {
        return Err(Conflict);
      }
      AppendedFits(w, r.id, data, cap);
      w := Appended(w, r.id, data);
      return Ok(());
    }

    /** Publication: exactly what the writer counted, nothing else. */
    method Publish(r: Reference, run: Option<string>, bytes: nat, sequence: nat) returns (ok: Result<(), Fault>)
      requires Valid()
      modifies this`w
      ensures Valid() && Evolves(old(w), w)
      ensures ok.Err? ==> w == old(w)
      ensures ok.Ok? ==>
        && Expects(old(w).t, r.id, bytes, sequence) && ReadyWith(w.t, r.id, bytes)
        && Stored(w.t, r.id) == Stored(old(w).t, r.id)
      ensures ok.Ok? <==> RunAllows(old(w).t, run, r.scope, true) && Expects(old(w).t, r.id, bytes, sequence)
      ensures ok == Err(Denied) <==> RunForeign(old(w).t, run, r.scope)
      ensures ok.Ok? ==>
        && r.id in w.t.artifacts && w.t.artifacts[r.id] == old(w).t.artifacts[r.id].(ready := true, orphanAfter := old(w).now + grace)
        && w.t.owners == old(w).t.owners && w.t.artifacts.Keys == old(w).t.artifacts.Keys
      ensures forall mine :: mine != r.id ==> Spares(old(w), w, mine)
    {
      hide Fits, Evolves, Spares, ArtifactFits, Stored, Published, ReadyWith, Expects, Authorized, RunFault, Contains, IsReady,
        RunAllows, RunForeign;
      AuthorizedMeans(w.t, run, r.scope, true);
      PublishedRow(w, r.id, w.now + grace);
      KnownOf(w, cap);
      EvolvesSelf(w);
      if !Authorized(w.t, run, r.scope, true) {
        return Err(RunFault(w.t, run, r.scope));
      }
      if !Expects(w.t, r.id, bytes, sequence) {
        return Err(Conflict);
      }
      PublishedWhenExpected(w, r.id, bytes, sequence, w.now + grace, cap);
      w := Published(w, r.id, w.now + grace);
      return Ok(());
    }

    /** An unpublished artifact and its chunks go away; a published one stays. */
    method Cleanup(id: string)
      requires Valid()
      modifies this`w
      ensures Valid() && Evolves(old(w), w)
      ensures Staged(old(w).t, id) ==> id !in w.t.artifacts
      ensures !Staged(old(w).t, id) ==> w == old(w)
      ensures Staged(old(w).t, id) ==> w.t.artifacts == old(w).t.artifacts - {id} && w.t.runs == old(w).t.runs
      ensures forall mine :: mine != id ==> Spares(old(w), w, mine)
    {
      EvolvesSelf(w);
      hide Fits, Evolves, Spares, ArtifactFits;
      if Staged(w.t, id) {
        WithoutFits(w, {id}, cap);
        w := w.(t := Without(w.t, {id}));
      }
    }

    method Collect()
      requires Valid()
      modifies this`w
      ensures Valid() && Evolves(old(w), w)
      ensures forall o :: o in old(w).t.owners ==> o.0 in w.t.artifacts && o in w.t.owners
      ensures forall mine :: Staged(old(w).t, mine) ==> Spares(old(w), w, mine)
      ensures w.t.artifacts.Keys == Remembered(old(w)) && (forall id :: id in w.t.artifacts ==> w.t.artifacts[id] == old(w).t.artifacts[id])
      ensures w.t.owners == old(w).t.owners && w.t.runs == old(w).t.runs && w.now == old(w).now
    {
      TablesAgree(w, cap);
      CollectedMeans(w);
      RememberedAfter(w, Collected(w));
      hide Fits, Evolves, Spares, Collected, Forgotten, Remembered;
      CollectedKeepsOwned(w, cap);
      w := Collected(w);
    }

    /** A new runtime drops what no caller can have a reference to. */
    method Claim()
      requires Valid()
      modifies this`w
      ensures Valid() && Evolves(old(w), w)
      ensures forall id :: id in w.t.artifacts <==> id in old(w).t.artifacts && old(w).t.artifacts[id].ready
      ensures forall id :: id in w.t.artifacts ==> w.t.artifacts[id] == old(w).t.artifacts[id]
      ensures forall mine :: Spares(old(w), w, mine)
    {
      WithoutFits(w, Staging(w.t), cap);
      hide Fits, Evolves, ArtifactFits;
      ghost var before := w;
      w := w.(t := Without(w.t, Staging(w.t)));
      assert forall mine :: mine in w.t.artifacts ==> mine !in Staging(before.t);
    }

    /** Pin every reference to a run, or none: the transaction is one. */
    method PinReferences(run: string, scope: string, references: seq<Reference>) returns (ok: Result<(), Fault>)
      requires Valid() && run in w.t.runs
      modifies this`w
      ensures Valid() && Evolves(old(w), w)
      ensures ok.Err? ==> w == old(w)
      ensures ok.Ok? ==> forall i :: 0 <= i < |references| ==>
        references[i].scope == scope && IsReady(w.t, references[i].id) && (references[i].id, run) in w.t.owners
      ensures ok.Ok? <==> forall i :: 0 <= i < |references| ==> references[i].scope == scope && Refers(old(w), references[i])
      ensures ok.Ok? ==> OwnedBy(old(w), w, run, references, |references|)
      ensures forall mine :: mine in old(w).t.artifacts ==> Spares(old(w), w, mine)
    {
      hide Fits, Evolves, Spares, AllSpared, Known, Pinned, References, PinsDone, Refers, SameReferences, OwnedBy, Staged, IsReady;
      KnownOf(w, cap);
      EvolvesSelf(w);
      SparedSelf(w);
      var tx, i := w, 0;
      assert PinsDone(tx, run, scope, references, 0) by { NothingPinned(tx, run, scope, references); }
      NothingOwned(w, run, references);
      while i < |references|
        invariant i <= |references| && Fits(tx, cap) && Evolves(w, tx) && run in tx.t.runs && w == old(w)
        invariant PinsDone(tx, run, scope, references, i) && AllSpared(w, tx)
        invariant SameReferences(w, tx) && OwnedBy(w, tx, run, references, i)
        invariant forall j :: 0 <= j < i ==> references[j].scope == scope && Refers(w, references[j])
      {
        if references[i].scope != scope {
          return Err(Denied);
        }
        ReferencesMean(tx, references[i]);
        SameReference(w, tx, references[i]);
        if !References(tx, references[i]) {
          return Err(Unavailable);
        }
        PinKeepsReferences(w, tx, references[i], run);
        PinOwns(w, tx, run, references, i);
        PinStep(w, tx, run, scope, references, i, cap);
        tx := Pinned(tx, references[i].id, run);
        i := i + 1;
      }
      AllPinned(w, tx, run, scope, references);
      w := tx;
      return Ok(());
    }

    method AcceptRun(run: string, scope: string)
      requires Valid() && run !in w.runIds
      modifies this`w
      ensures Valid() && Evolves(old(w), w) && forall mine :: Spares(old(w), w, mine)
      ensures w.t == old(w).t.(runs := old(w).t.runs[run := RunRow(scope, true)])
    {
      var u := w.(t := w.t.(runs := w.t.runs[run := RunRow(scope, true)]), runIds := w.runIds + {run});
      KnownOf(w, cap);
      RunsFit(w, u, cap);
      hide Fits, Evolves, Spares;
      w := u;
    }

    method CloseRun(run: string)
      requires Valid() && run in w.t.runs
      modifies this`w
      ensures Valid() && Evolves(old(w), w) && forall mine :: Spares(old(w), w, mine)
      ensures w.t == old(w).t.(runs := old(w).t.runs[run := old(w).t.runs[run].(writable := false)])
    {
      var u := w.(t := w.t.(runs := w.t.runs[run := w.t.runs[run].(writable := false)]));
      KnownOf(w, cap);
      RunsFit(w, u, cap);
      hide Fits, Evolves, Spares;
      w := u;
    }

    /** Removing a run takes its owner rows with it. */
    method RemoveRun(run: string)
      requires Valid()
      modifies this`w
      ensures Valid() && Evolves(old(w), w) && forall mine :: Spares(old(w), w, mine)
      ensures w.t.artifacts == old(w).t.artifacts && w.t.chunks == old(w).t.chunks && w.t.runs == old(w).t.runs - {run}
      ensures forall o :: o in w.t.owners <==> o in old(w).t.owners && o.1 != run
    {
      KnownOf(w, cap);
      RunsFit(w, WithoutRun(w, run), cap);
      hide Fits, Evolves, Spares;
      w := WithoutRun(w, run);
    }

    method Advance(elapsed: nat)
      requires Valid()
      modifies this`w
      ensures Valid() && Evolves(old(w), w) && forall mine :: Spares(old(w), w, mine)
      ensures w == old(w).(now := old(w).now + elapsed)
    {
      KnownOf(w, cap);
      RunsFit(w, w.(now := w.now + elapsed), cap);
      hide Fits, Evolves, Spares;
      w := w.(now := w.now + elapsed);
    }

    /** Anything the rest of the system may do to the tables while a writer of `mine` or a reader is not looking. */
    method Interfere(mine: string)
      requires Valid() && mine in w.issued
      modifies this`w
      ensures Valid() && Evolves(old(w), w)
      ensures Staged(old(w).t, mine) ==> Spares(old(w), w, mine)
    {
      var moments :| moments >= 0;
      KnownOf(w, cap);
      EvolvesSelf(w);
      hide Fits, Evolves, Spares;
      for i := 0 to moments
        invariant Valid() && Evolves(old(w), w) && mine in w.issued
        invariant Staged(old(w).t, mine) ==> Spares(old(w), w, mine) && (mine in w.t.artifacts ==> Staged(w.t, mine))
      {
        ghost var before := w;
        Act(mine);
        Joined(old(w), before, w, mine, cap);
      }
    }

    /** One transaction of somebody else. */
    method Act(mine: string)
      requires Valid() && mine in w.issued
      modifies this`w
      ensures Valid() && Evolves(old(w), w)
      ensures Staged(old(w).t, mine) ==> Spares(old(w), w, mine)
    {
      KnownOf(w, cap);
      EvolvesSelf(w);
      hide Fits, Evolves, Spares, ArtifactFits;
      var id: string, run: string, scope: string, media: string := *, *, *, *;
      var who: Option<string> := *;
      var bytes, sequence, elapsed :| bytes >= 0 && sequence >= 0 && elapsed >= 0;
      var data: Content, references: seq<Reference> := *, *;
      var r := Reference(id, scope, bytes, media);
      if * {
        if id !in w.issued { var began := Begin(r, who); }
      } else if * {
        if id != mine && 0 < |data| <= CHUNK_BYTES { var appended := Append(r, who, bytes, sequence, data); }
      } else if * {
        if id != mine { var published := Publish(r, who, bytes, sequence); }
      } else if * {
        if id != mine { Cleanup(id); }
      } else if * {
        Collect();
      } else if * {
        Claim();
      } else if * {
        if run in w.t.runs { var pinned := PinReferences(run, scope, references); }
      } else if * {
        if run !in w.runIds { AcceptRun(run, scope); }
      } else if * {
        if run in w.t.runs { CloseRun(run); }
      } else if * {
        RemoveRun(run);
      } else {
        Advance(elapsed);
      }
    }

    /** The rest of the world moves, then the writer appends one chunk. */
    method AppendNext(r: Reference, run: Option<string>, sequence: nat, ghost written: Content, data: Content) returns (ok: Result<(), Fault>)
      requires Valid() && 0 < |data| <= CHUNK_BYTES && r.id in w.issued && r.bytes == |written|
      requires Holding(w.t, r.id, sequence, written)
      modifies this`w
      ensures Valid() && Evolves(old(w), w) && r.id in w.issued
      ensures if ok.Ok? then Holding(w.t, r.id, sequence + 1, written + data) else Holding(w.t, r.id, sequence, written)
    {
      KnownOf(w, cap);
      hide Evolves, Spares, ArtifactFits, Stored, Holding, Expects, Fits;
      Interfere(r.id);
      HoldingKept(old(w), w, r.id, sequence, written);
      StillIssued(old(w), w, r.id);
      ghost var before := w;
      ok := Append(r, run, r.bytes, sequence, data);
      EvolvesTransitive(old(w), before, w);
      StillIssued(before, w, r.id);
      if ok.Ok? {
        HoldingGrows(before, w, r.id, sequence, written, data, cap);
      }
    }

    /** One source chunk, cut into stored ones. */
    method UploadChunk(r: Reference, run: Option<string>, sequence0: nat, ghost written: Content, chunk: Content)
      returns (ok: Result<(), Fault>, sequence: nat)
      requires Valid() && r.id in w.issued && r.bytes == |written| && Holding(w.t, r.id, sequence0, written)
      modifies this`w
      ensures Valid() && Evolves(old(w), w) && r.id in w.issued
      ensures if ok.Ok? then Holding(w.t, r.id, sequence, written + chunk) else !IsReady(w.t, r.id)
    {
      KnownOf(w, cap);
      EvolvesSelf(w);
      hide Evolves, Spares, ArtifactFits, Stored, Holding, Expects, Fits, IsReady, Known;
      sequence := sequence0;
      var at := 0;
      assert written + chunk[..0] == written;
      while at < |chunk|
        invariant at <= |chunk| && Valid() && Evolves(old(w), w) && r.id in w.issued
        invariant Holding(w.t, r.id, sequence, written + chunk[..at])
      {
        var end := if at + limit < |chunk| then at + limit else |chunk|;
        ghost var before, sent := w, written + chunk[..at];
        ok := AppendNext(r.(bytes := r.bytes + at), run, sequence, sent, chunk[at..end]);
        EvolvesTransitive(old(w), before, w);
        if ok.Err? {
          HoldingUnpublished(w.t, r.id, sequence, sent);
          return;
        }
        Sliced(written, chunk, at, end);
        sequence, at := sequence + 1, end;
      }
      assert chunk[..at] == chunk;
      ok := Ok(());
    }

    /** The chunk loop of a writer: each source chunk is cut into stored ones. */
    method Upload(r: Reference, run: Option<string>, source: Source) returns (sent: Result<(nat, nat), Fault>)
      requires Valid() && r.id in w.issued && r.bytes == 0 && Holding(w.t, r.id, 0, [])
      modifies this`w
      ensures Valid() && Evolves(old(w), w) && r.id in w.issued
      ensures sent.Ok? ==>
        && Delivers(source) && sent.value.0 == |Produced(source)|
        && Holding(w.t, r.id, sent.value.1, Produced(source))
      ensures sent.Err? ==> !IsReady(w.t, r.id)
    {
      KnownOf(w, cap);
      EvolvesSelf(w);
      ProducedNothing(source);
      hide Evolves, Spares, ArtifactFits, Stored, Holding, Expects, Fits, IsReady, Known, Delivers, Produced;
      var bytes, sequence, i := 0, 0, 0;
      ghost var written := [];
      while i < |source|
        invariant i <= |source| && Delivers(source[..i]) && written == Produced(source[..i]) && bytes == |written|
        invariant Valid() && Evolves(old(w), w) && r.id in w.issued && Holding(w.t, r.id, sequence, written)
      {
        if source[i].Err? {
          HoldingUnpublished(w.t, r.id, sequence, written);
          return Err(source[i].error);
        }
        var chunk := source[i].value;
        if |chunk| > cap - bytes {
          HoldingUnpublished(w.t, r.id, sequence, written);
          return Err(Exhausted);
        }
        ghost var before := w;
        var ok;
        ok, sequence := UploadChunk(r.(bytes := bytes), run, sequence, written, chunk);
        EvolvesTransitive(old(w), before, w);
        if ok.Err? {
          return Err(ok.error);
        }
        bytes, written := bytes + |chunk|, written + chunk;
        ProducedStep(source, i);
        i := i + 1;
      }
      assert source[..i] == source;
      return Ok((bytes, sequence));
    }

    /** The first transaction of a writer. */
    method Start(r: Reference, run: Option<string>) returns (ok: Result<(), Fault>)
      requires Valid() && r.id !in w.issued
      modifies this`w
      ensures Valid() && Evolves(old(w), w)
      ensures if ok.Ok? then r.id in w.issued && Holding(w.t, r.id, 0, []) else !IsReady(w.t, r.id)
    {
      KnownOf(w, cap);
      hide Evolves, Spares, Fits;
      ok := Begin(r, run);
      if ok.Ok? {
        HoldingStart(w, r.id, cap);
      }
    }

    /**
     A whole write: begin, upload, publish, and on any failure a clean-up that may itself be
     lost. Whoever finds the artifact published finds exactly what the source produced.
     */
    method WriteArtifact(id: string, run: Option<string>, scope: string, mediaType: string, source: Source) returns (written: Result<Reference, Fault>)
      requires Valid() && id !in w.issued
      modifies this`w
      ensures Valid() && Evolves(old(w), w)
      ensures IsReady(w.t, id) ==> Delivers(source) && Contains(w.t, id, Produced(source))
      ensures written.Ok? ==>
        && IsReady(w.t, id) && Delivers(source)
        && written.value == Reference(id, scope, |Produced(source)|, mediaType)
      ensures !(1 <= |scope| <= 256 && 1 <= |mediaType| <= 256) ==> written == Err(Invalid) && w == old(w)
    {
      KnownOf(w, cap);
      EvolvesSelf(w);
      assert !IsReady(w.t, id);
      hide Evolves, Spares, ArtifactFits, Stored, Holding, Expects, Fits, Known, IsReady, Staged, Contains, Delivers, Produced;
      if |scope| == 0 || |scope| > 256 || |mediaType| == 0 || |mediaType| > 256 {
        return Err(Invalid);
      }
      var r := Reference(id, scope, 0, mediaType);
      var begun := Start(r, run);
      if begun.Err? {
        return Err(begun.error);
      }
      ghost var before := w;
      var sent := Upload(r, run, source);
      EvolvesTransitive(old(w), before, w);
      if sent.Err? {
        before := w;
        Abandon(id);
        EvolvesTransitive(old(w), before, w);
        return Err(sent.error);
      }
      before := w;
      var published := PublishNext(r, run, sent.value.0, sent.value.1, Produced(source));
      EvolvesTransitive(old(w), before, w);
      if published.Err? {
        before := w;
        Abandon(id);
        EvolvesTransitive(old(w), before, w);
        ContainsForever(before, w, id, Produced(source));
        return Err(published.error);
      }
      return Ok(r.(bytes := sent.value.0));
    }

    /** The last transaction of a writer, whose acknowledgement may be lost. */
    method PublishNext(r: Reference, run: Option<string>, bytes: nat, sequence: nat, ghost written: Content) returns (ok: Result<(), Fault>)
      requires Valid() && r.id in w.issued && bytes == |written| && Holding(w.t, r.id, sequence, written)
      modifies this`w
      ensures Valid() && Evolves(old(w), w)
      ensures IsReady(w.t, r.id) ==> Contains(w.t, r.id, written)
      ensures ok.Ok? ==> IsReady(w.t, r.id)
    {
      KnownOf(w, cap);
      Interfere(r.id);
      HoldingKept(old(w), w, r.id, sequence, written);
      HoldingUnpublished(w.t, r.id, sequence, written);
      ghost var before := w;
      assert Expects(w.t, r.id, bytes, sequence) ==> Stored(w.t, r.id) == written;
      hide Evolves, Spares, ArtifactFits, Stored, Holding, Fits;
      ok := Publish(r, run, bytes, sequence);
      EvolvesTransitive(old(w), before, w);
      PublishedIsFit(w, r.id, cap);
      if * {
        return Err(Unavailable);
      }
    }

    /** The clean-up of a failed write, which a crash may lose. */
    method Abandon(id: string)
      requires Valid()
      modifies this`w
      ensures Valid() && Evolves(old(w), w)
      ensures IsReady(w.t, id) ==> IsReady(old(w).t, id)
    {
      KnownOf(w, cap);
      EvolvesSelf(w);
      hide Evolves, Spares, Fits;
      if * {
        Cleanup(id);
      }
    }

    /** The test every read transaction repeats. */
    method CheckRead(r: Reference, run: Option<string>) returns (chunks: Result<nat, Fault>)
      ensures chunks.Ok? <==> Refers(w, r) && RunAllows(w.t, run, r.scope, false) && (run.Some? ==> (r.id, run.value) in w.t.owners)
      ensures chunks.Ok? ==> chunks.value == w.t.artifacts[r.id].chunks
      ensures chunks.Err? ==> chunks.error == if Refers(w, r) then Denied else Unavailable
    {
      ReferencesMean(w, r);
      AuthorizedMeans(w.t, run, r.scope, false);
      if !References(w, r) {
        return Err(Unavailable);
      }
      if !Authorized(w.t, run, r.scope, false) || (run.Some? && (r.id, run.value) !in w.t.owners) {
        return Err(Denied);
      }
      return Ok(w.t.artifacts[r.id].chunks);
    }

    /**
     A reader walks the chunks with everyone else at work between any two, and rechecks its
     rights each time. What it returns is the artifact as it was when reading began, and the
     corruption tests never fire.
     */
    method ReadArtifact(r: Reference, run: Option<string>) returns (content: Result<Content, Fault>)
      requires Valid()
      modifies this`w
      ensures Valid()
      ensures content.Ok? ==> Contains(old(w).t, r.id, content.value)
      ensures content.Err? ==> content.error in {Unavailable, Denied}
    {
      var chunks := CheckRead(r, run);
      if chunks.Err? {
        return Err(chunks.error);
      }
      ReadNothing(w, r.id, cap);
      hide Evolves, Spares, ArtifactFits, Stored, ContentTo, Fits, Known, HasChunks;
      var data, sequence := [], 0;
      while sequence < chunks.value
        invariant Valid() && Evolves(old(w), w) && r.id in w.issued && sequence <= chunks.value
        invariant ReadTo(old(w).t, r.id, sequence, data)
      {
        ghost var before := w;
        Interfere(r.id);
        EvolvesTransitive(old(w), before, w);
        StillIssued(before, w, r.id);
        var again := CheckRead(r, run);
        if again.Err? {
          return Err(again.error);
        }
        ReadStep(old(w), w, r.id, sequence, data);
        if (r.id, sequence) !in w.t.chunks {
          return Err(Corrupt);
        }
        var chunk := w.t.chunks[(r.id, sequence)];
        if |chunk| == 0 || |chunk| > CHUNK_BYTES || |chunk| > r.bytes - |data| {
          return Err(Corrupt);
        }
        data, sequence := data + chunk, sequence + 1;
      }
      ReadWhole(old(w).t, r.id, sequence, data);
      if |data| != r.bytes {
        return Err(Corrupt);
      }
      return Ok(data);
    }

    /** What a reader gets from a finished write, however long after and whatever happened since. */
    method Exchange(id: string, writer: Option<string>, reader: Option<string>, scope: string, mediaType: string, source: Source)
      returns (written: Result<Reference, Fault>, content: Result<Content, Fault>)
      requires Valid() && id !in w.issued
      modifies this`w
      ensures Valid()
      ensures content.Ok? ==> written.Ok? && Delivers(source) && content.value == Produced(source)
      ensures content.Err? && written.Ok? ==> content.error in {Unavailable, Denied}
    {
      hide Evolves, Spares, ArtifactFits, Stored, Fits, Known, Delivers, Produced;
      written := WriteArtifact(id, writer, scope, mediaType, source);
      if written.Err? {
        return written, Err(written.error);
      }
      ghost var before := w;
      PublishedIsFit(w, id, cap);
      Interfere(id);
      ContainsForever(before, w, id, Produced(source));
      content := ReadArtifact(written.value, reader);
    }
  }

  lemma StillIssued(w: World, u: World, id: string)
    requires id in w.issued && Evolves(w, u)
    ensures id in u.issued
  {
  }

  lemma PublishedIsFit(w: World, id: string, cap: nat)
    requires Fits(w, cap)
    ensures id in w.t.artifacts ==> ArtifactFits(w.t, id) && id in w.issued
  {
  }

  /** Once published, an artifact reads the same until it is removed for good. */
  lemma ContainsForever(w: World, u: World, id: string, content: Content)
    requires Evolves(w, u)
    ensures Contains(w.t, id, content) && id in u.t.artifacts ==> Contains(u.t, id, content)
    ensures IsReady(w.t, id) && id !in u.t.artifacts ==> !IsReady(u.t, id)
  {
    if Contains(w.t, id, content) && id in u.t.artifacts {
      SameFits(w.t, u.t, id);
    }
  }
}
