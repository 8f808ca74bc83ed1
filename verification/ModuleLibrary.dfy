/** The library of business modules. Migrating a module moves no asset: a target shows the assets of the
    modules that resolve to it under ids of their own, and references taken earlier are still found. */
module ModuleLibrary {
  import opened Prelude
  import opened ModuleIdentity

  const MAX_ASSETS := 60

  datatype Asset = Asset(id: string, version: nat, archived: bool)

  datatype Module = Module(active: bool, assets: seq<Asset>)

  datatype Location = Location(moduleId: string, assetId: string)

  datatype Document = Document(at: Location, version: nat)

  datatype Library = Library(modules: map<string, Module>, records: seq<Migration>, documents: map<Document, string>)

  type Digest = string -> string

  // ----- ids

  function MigratedId(digest: Digest, at: Location): string {
    "migrated-" + digest(at.moduleId + ":" + at.assetId)
  }

  ghost predicate Injective(digest: Digest) {
    forall s, t :: digest(s) == digest(t) ==> s == t
  }

  /** As module ids have no colon, no two assets share a migrated id. */
  lemma MigratedIdsDiffer(digest: Digest, a: Location, b: Location)
    requires Injective(digest) && ':' !in a.moduleId && ':' !in b.moduleId
    requires MigratedId(digest, a) == MigratedId(digest, b)
    ensures a == b
  {
    var s, t := a.moduleId + ":" + a.assetId, b.moduleId + ":" + b.assetId;
    assert digest(s) == MigratedId(digest, a)[9..] == MigratedId(digest, b)[9..] == digest(t);
    assert s == t;
    var n, m := |a.moduleId|, |b.moduleId|;
    assert s[n] == ':' && t[m] == ':';
    assert forall k :: 0 <= k < n ==> s[k] == a.moduleId[k] && s[k] != ':';
    assert forall k :: 0 <= k < m ==> t[k] == b.moduleId[k] && t[k] != ':';
    assert n == m;
    assert a.moduleId == s[..n] && b.moduleId == t[..n];
    assert a.assetId == s[n + 1..] && b.assetId == t[n + 1..];
  }

  // ----- the assets of a module

  function Ids(assets: seq<Asset>): set<string> {
    set i | 0 <= i < |assets| :: assets[i].id
  }

  function AssetOf(assets: seq<Asset>, id: string): Option<Asset> {
    if assets == [] then None
    else if assets[0].id == id then Some(assets[0])
    else AssetOf(assets[1..], id)
  }

  ghost predicate DistinctIds(assets: seq<Asset>) {
    forall i, j :: 0 <= i < j < |assets| ==> assets[i].id != assets[j].id
  }

  function Without(assets: seq<Asset>, id: string): seq<Asset> {
    if assets == [] then []
    else if assets[0].id == id then Without(assets[1..], id)
    else [assets[0]] + Without(assets[1..], id)
  }

  function Put(assets: seq<Asset>, asset: Asset): seq<Asset> {
    Without(assets, asset.id) + [asset]
  }

  lemma {:induction false} AssetIsFound(assets: seq<Asset>, id: string)
    ensures AssetOf(assets, id).Some? <==> id in Ids(assets)
    ensures AssetOf(assets, id).Some? ==> AssetOf(assets, id).value.id == id
    ensures AssetOf(assets, id).Some? ==> AssetOf(assets, id).value in assets
  {
    if assets != [] && assets[0].id != id {
      AssetIsFound(assets[1..], id);
      assert forall i :: 0 < i < |assets| ==> assets[i] == assets[1..][i - 1];
    }
  }

  lemma {:induction false} WithoutHas(assets: seq<Asset>, id: string, other: string)
    ensures AssetOf(Without(assets, id), other) == if other == id then None else AssetOf(assets, other)
  {
    if assets != [] {
      WithoutHas(assets[1..], id, other);
      if assets[0].id != id {
        assert Without(assets, id)[1..] == Without(assets[1..], id);
      }
    }
  }

  lemma {:induction false} AppendHas(assets: seq<Asset>, asset: Asset, other: string)
    ensures AssetOf(assets + [asset], other) ==
            if AssetOf(assets, other).Some? then AssetOf(assets, other)
            else if other == asset.id then Some(asset) else None
  {
    if assets != [] {
      assert (assets + [asset])[1..] == assets[1..] + [asset];
      AppendHas(assets[1..], asset, other);
    }
  }

  /** Publishing an asset replaces it or adds it, and leaves the others alone. */
  lemma {:induction false} PutReplaces(assets: seq<Asset>, asset: Asset, other: string)
    ensures AssetOf(Put(assets, asset), other) == if other == asset.id then Some(asset) else AssetOf(assets, other)
    ensures Ids(Put(assets, asset)) == Ids(assets) + {asset.id}
  {
    forall id ensures id in Ids(Put(assets, asset)) <==> id in Ids(assets) || id == asset.id {
      WithoutHas(assets, asset.id, id);
      AppendHas(Without(assets, asset.id), asset, id);
      AssetIsFound(assets, id);
      AssetIsFound(Put(assets, asset), id);
    }
    WithoutHas(assets, asset.id, other);
    AppendHas(Without(assets, asset.id), asset, other);
  }

  lemma {:induction false} WithoutDistinct(assets: seq<Asset>, id: string)
    requires DistinctIds(assets)
    ensures DistinctIds(Without(assets, id)) && Ids(Without(assets, id)) <= Ids(assets) - {id}
  {
    if assets != [] {
      assert DistinctIds(assets[1..]);
      WithoutDistinct(assets[1..], id);
      var rest := Without(assets[1..], id);
      assert Ids(assets[1..]) <= Ids(assets) by {
        assert forall i :: 0 <= i < |assets[1..]| ==> assets[1..][i] == assets[i + 1];
      }
      if assets[0].id != id {
        HeadDistinct(assets, rest);
      }
    }
  }

  lemma HeadDistinct(assets: seq<Asset>, rest: seq<Asset>)
    requires assets != [] && DistinctIds(assets) && DistinctIds(rest) && Ids(rest) <= Ids(assets[1..])
    ensures DistinctIds([assets[0]] + rest) && Ids([assets[0]] + rest) == Ids(rest) + {assets[0].id}
  {
    var all := [assets[0]] + rest;
    forall id | id in Ids(rest) ensures id != assets[0].id {
      assert id in Ids(assets[1..]);
      var k :| 0 <= k < |assets[1..]| && assets[1..][k].id == id;
      assert assets[k + 1].id == id;
    }
    assert forall j :: 0 < j < |all| ==> all[j] == rest[j - 1] && all[j].id in Ids(rest);
    PrependedIds(assets[0], rest);
  }

  lemma PrependedIds(first: Asset, rest: seq<Asset>)
    ensures Ids([first] + rest) == Ids(rest) + {first.id}
  {
    var all := [first] + rest;
    forall id | id in Ids(rest) ensures id in Ids(all) {
      var k :| 0 <= k < |rest| && rest[k].id == id;
      assert all[k + 1] == rest[k];
    }
    assert all[0] == first;
    forall id | id in Ids(all) ensures id in Ids(rest) + {first.id} {
      var k :| 0 <= k < |all| && all[k].id == id;
      assert k == 0 || all[k] == rest[k - 1];
    }
  }

  lemma PutDistinct(assets: seq<Asset>, asset: Asset)
    requires DistinctIds(assets)
    ensures DistinctIds(Put(assets, asset))
  {
    WithoutDistinct(assets, asset.id);
    var rest := Without(assets, asset.id);
    forall i | 0 <= i < |rest| ensures rest[i].id != asset.id {
      assert rest[i].id in Ids(rest);
    }
  }

  // ----- what a library shows

  predicate Stored(lib: Library, at: Location) {
    at.moduleId in lib.modules && at.assetId in Ids(lib.modules[at.moduleId].assets)
  }

  /** A live module shows its own assets, and those of every module that resolves to it, by these ids. */
  ghost predicate Shows(lib: Library, digest: Digest, moduleId: string, id: string, at: Location) {
    && Stored(lib, at) && Home(lib.records, moduleId) == moduleId == Home(lib.records, at.moduleId)
    && id == if at.moduleId == moduleId then at.assetId else MigratedId(digest, at)
  }

  /** What a reference denotes without falling back: an asset stored in the module it names, or else one of
      a module that has been migrated to where that module is now. */
  ghost predicate Names(lib: Library, digest: Digest, moduleId: string, id: string, at: Location) {
    if Stored(lib, Location(moduleId, id)) then at == Location(moduleId, id)
    else
      && Stored(lib, at) && Home(lib.records, at.moduleId) == Home(lib.records, moduleId) != at.moduleId
      && MigratedId(digest, at) == id
  }

  ghost predicate Known(lib: Library, digest: Digest, moduleId: string, id: string) {
    exists at :: Names(lib, digest, moduleId, id, at)
  }

  ghost function Locate(lib: Library, digest: Digest, moduleId: string, id: string): Location {
    if Known(lib, digest, moduleId, id) then
      var at :| Names(lib, digest, moduleId, id, at);
      at
    else Location(Home(lib.records, moduleId), id)
  }

  /** Every module that is recorded exists, and no id has a colon. */
  ghost predicate ModulesInv(lib: Library) {
    && ValidRecords(lib.records) && SourcesOf(lib.records) <= lib.modules.Keys
    && (forall m :: m in lib.modules ==> ':' !in m && Home(lib.records, m) in lib.modules)
    && forall m :: m in lib.modules ==> DistinctIds(lib.modules[m].assets)
  }

  /** No own asset of a live module has an id under which it shows another one. */
  ghost predicate NoShadow(lib: Library, digest: Digest) {
    forall at: Location :: Stored(lib, at) && Home(lib.records, at.moduleId) != at.moduleId ==>
      !Stored(lib, Location(Home(lib.records, at.moduleId), MigratedId(digest, at)))
  }

  function VersionAt(lib: Library, at: Location): nat {
    if at.moduleId in lib.modules && AssetOf(lib.modules[at.moduleId].assets, at.assetId).Some?
    then AssetOf(lib.modules[at.moduleId].assets, at.assetId).value.version else 0
  }

  function AssetAt(lib: Library, at: Location): Option<Asset> {
    if at.moduleId in lib.modules then AssetOf(lib.modules[at.moduleId].assets, at.assetId) else None
  }

  /** The documents are those of the versions up to the current one of each asset. */
  ghost predicate DocumentsInv(lib: Library) {
    forall d: Document :: d in lib.documents <==> Stored(lib, d.at) && 1 <= d.version <= VersionAt(lib, d.at)
  }

  ghost predicate Inv(lib: Library, digest: Digest) {
    ModulesInv(lib) && NoShadow(lib, digest) && DocumentsInv(lib)
  }

  lemma NamesOne(lib: Library, digest: Digest, moduleId: string, id: string, a: Location, b: Location)
    requires ModulesInv(lib) && Injective(digest)
    requires Names(lib, digest, moduleId, id, a) && Names(lib, digest, moduleId, id, b)
    ensures a == b
  {
    if !Stored(lib, Location(moduleId, id)) {
      MigratedIdsDiffer(digest, a, b);
    }
  }

  lemma LocateNamed(lib: Library, digest: Digest, moduleId: string, id: string, at: Location)
    requires ModulesInv(lib) && Injective(digest) && Names(lib, digest, moduleId, id, at)
    ensures Locate(lib, digest, moduleId, id) == at
  {
    NamesOne(lib, digest, moduleId, id, at, Locate(lib, digest, moduleId, id));
  }

  lemma OwnIsKnown(lib: Library, digest: Digest, moduleId: string, id: string)
    ensures Stored(lib, Location(moduleId, id)) ==> Known(lib, digest, moduleId, id)
  {
    assert Stored(lib, Location(moduleId, id)) ==> Names(lib, digest, moduleId, id, Location(moduleId, id));
  }

  /** What a live module shows, it can also find. */
  lemma ShownIsNamed(lib: Library, digest: Digest, moduleId: string, id: string, at: Location)
    requires NoShadow(lib, digest) && Shows(lib, digest, moduleId, id, at)
    ensures Names(lib, digest, moduleId, id, at)
  {
  }

  /** Every stored asset is shown by exactly one module under exactly one id, and no id is shown twice. */
  lemma EachAssetShownOnce(lib: Library, digest: Digest, at: Location)
    requires Inv(lib, digest) && Injective(digest) && Stored(lib, at)
    ensures exists moduleId, id :: Shows(lib, digest, moduleId, id, at)
    ensures forall m1, i1, m2, i2 ::
              Shows(lib, digest, m1, i1, at) && Shows(lib, digest, m2, i2, at) ==> m1 == m2 && i1 == i2
    ensures forall moduleId, id, other ::
              Shows(lib, digest, moduleId, id, at) && Shows(lib, digest, moduleId, id, other) ==> at == other
  {
    var home := Home(lib.records, at.moduleId);
    HomeIsFinal(lib.records, at.moduleId);
    assert Shows(lib, digest, home, if at.moduleId == home then at.assetId else MigratedId(digest, at), at);
    forall moduleId, id, other | Shows(lib, digest, moduleId, id, at) && Shows(lib, digest, moduleId, id, other)
      ensures at == other
    {
      ShownIsNamed(lib, digest, moduleId, id, at);
      ShownIsNamed(lib, digest, moduleId, id, other);
      NamesOne(lib, digest, moduleId, id, at, other);
    }
  }

  // ----- what changes a library

  datatype Event =
    | Create(id: string)
    | SetActive(id: string, active: bool)
    | Publish(moduleId: string, assetId: string, content: string, accepted: bool)
    | Archive(moduleId: string, assetId: string)
    | Migrate(source: string, target: string, readable: bool)

  predicate Alphanumeric(c: char) {
    'A' <= c <= 'Z' || 'a' <= c <= 'z' || '0' <= c <= '9'
  }

  predicate ValidId(id: string) {
    && 1 <= |id| <= 64 && Alphanumeric(id[0])
    && forall i :: 0 <= i < |id| ==> Alphanumeric(id[i]) || id[i] == '.' || id[i] == '_' || id[i] == '-'
  }

  ghost function Published(lib: Library, at: Location, content: string): Library
    requires at.moduleId in lib.modules
  {
    var version := VersionAt(lib, at) + 1;
    var assets := Put(lib.modules[at.moduleId].assets, Asset(at.assetId, version, false));
    Library(lib.modules[at.moduleId := lib.modules[at.moduleId].(assets := assets)], lib.records,
            lib.documents[Document(at, version) := content])
  }

  ghost predicate Publishes(lib: Library, digest: Digest, e: Event)
    requires e.Publish?
  {
    && ValidId(e.assetId) && !Blank(e.content) && e.accepted
    && e.moduleId in lib.modules && Home(lib.records, e.moduleId) in lib.modules
    && lib.modules[Home(lib.records, e.moduleId)].active
    && var at := Locate(lib, digest, e.moduleId, e.assetId);
       && at.moduleId in lib.modules
       && (Stored(lib, at) || |lib.modules[at.moduleId].assets| < MAX_ASSETS)
       && Document(at, VersionAt(lib, at) + 1) !in lib.documents
  }

  function ArchivedIn(assets: seq<Asset>, id: string): seq<Asset> {
    if assets == [] then []
    else [if assets[0].id == id then assets[0].(archived := true) else assets[0]] + ArchivedIn(assets[1..], id)
  }

  ghost function Archived(lib: Library, at: Location): Library
    requires Stored(lib, at)
  {
    var home := lib.modules[at.moduleId];
    lib.(modules := lib.modules[at.moduleId := home.(assets := ArchivedIn(home.assets, at.assetId))])
  }

  /** An asset would arrive under an id that the target already shows. */
  ghost predicate Conflict(lib: Library, digest: Digest, source: string, target: string) {
    exists at: Location, other: Location ::
      && Stored(lib, at) && Home(lib.records, at.moduleId) == source
      && Shows(lib, digest, target, MigratedId(digest, at), other)
  }

  ghost predicate Migrates(lib: Library, digest: Digest, e: Event)
    requires e.Migrate?
  {
    && ValidId(e.source) && ValidId(e.target) && e.source != e.target
    && Live(lib.records, e.source) && Live(lib.records, e.target)
    && e.source in lib.modules && e.target in lib.modules && lib.modules[e.target].active
    && !Conflict(lib, digest, e.source, e.target) && e.readable
  }

  /** The library after an event; what is refused changes nothing. */
  ghost function Do(lib: Library, digest: Digest, e: Event): Library {
    match e
    case Create(id) =>
      if ValidId(id) && id !in lib.modules then lib.(modules := lib.modules[id := Module(true, [])]) else lib
    case SetActive(id, active) =>
      if Live(lib.records, id) && id in lib.modules
      then lib.(modules := lib.modules[id := lib.modules[id].(active := active)]) else lib
    case Publish(m, x, content, _) =>
      if Publishes(lib, digest, e) then Published(lib, Locate(lib, digest, m, x), content) else lib
    case Archive(m, x) =>
      if m in lib.modules && Stored(lib, Locate(lib, digest, m, x))
      then Archived(lib, Locate(lib, digest, m, x)) else lib
    case Migrate(source, target, _) =>
      if Migrates(lib, digest, e) then lib.(records := lib.records + [Migration(source, target)]) else lib
  }

  ghost function DoAll(lib: Library, digest: Digest, events: seq<Event>): Library
    decreases |events|
  {
    if events == [] then lib else DoAll(Do(lib, digest, events[0]), digest, events[1..])
  }

  // ----- what every event keeps

  ghost predicate Free(lib: Library, digest: Digest, at: Location) {
    Home(lib.records, at.moduleId) == at.moduleId && !Known(lib, digest, at.moduleId, at.assetId)
  }

  /** What no event takes back: assets stay, modules that share a home go on sharing one, and an asset is
      only added to a live module under an id that denoted nothing there. */
  ghost predicate Grows(lib: Library, digest: Digest, after: Library) {
    && (forall at :: Stored(lib, at) ==> Stored(after, at))
    && (forall a, b :: Home(lib.records, a) == Home(lib.records, b) ==>
          Home(after.records, a) == Home(after.records, b))
    && (forall a :: Home(lib.records, a) != a ==> Home(after.records, a) != a)
    && (forall at :: Stored(after, at) && !Stored(lib, at) ==> Free(lib, digest, at))
    && (forall d :: d in lib.documents ==> d in after.documents && after.documents[d] == lib.documents[d])
  }

  /** What a reference denotes without falling back it denotes after any event. */
  lemma NamesStay(lib: Library, digest: Digest, after: Library, moduleId: string, id: string, at: Location)
    requires Grows(lib, digest, after) && Names(lib, digest, moduleId, id, at)
    ensures Names(after, digest, moduleId, id, at)
  {
    assert Known(lib, digest, moduleId, id);
    assert !Free(lib, digest, Location(moduleId, id));
  }

  lemma GrowsOn(a: Library, digest: Digest, b: Library)
    requires Grows(a, digest, b) && a.records == b.records
    requires ValidRecords(b.records) && NoShadow(a, digest)
    ensures NoShadow(b, digest)
  {
    forall at: Location | Stored(b, at) && Home(b.records, at.moduleId) != at.moduleId
      ensures !Stored(b, Location(Home(b.records, at.moduleId), MigratedId(digest, at)))
    {
      assert !Free(a, digest, at);
      HomeIsFinal(b.records, at.moduleId);
      var shadow := Location(Home(b.records, at.moduleId), MigratedId(digest, at));
      assert Names(a, digest, shadow.moduleId, shadow.assetId, at);
      assert !Free(a, digest, shadow);
    }
  }

  lemma CreateKeeps(lib: Library, digest: Digest, id: string)
    requires Inv(lib, digest)
    ensures var after := Do(lib, digest, Create(id)); Inv(after, digest) && Grows(lib, digest, after)
  {
    var after := Do(lib, digest, Create(id));
    if after != lib {
      HomeIsFinal(lib.records, id);
      assert forall at :: Stored(after, at) <==> Stored(lib, at);
      assert forall at :: VersionAt(after, at) == VersionAt(lib, at);
    }
  }

  lemma SetActiveKeeps(lib: Library, digest: Digest, id: string, active: bool)
    requires Inv(lib, digest)
    ensures var after := Do(lib, digest, SetActive(id, active)); Inv(after, digest) && Grows(lib, digest, after)
  {
    var after := Do(lib, digest, SetActive(id, active));
    assert forall at :: Stored(after, at) <==> Stored(lib, at);
    assert forall at :: VersionAt(after, at) == VersionAt(lib, at);
  }

  lemma {:induction false} ArchivedHas(assets: seq<Asset>, id: string, other: string)
    ensures AssetOf(ArchivedIn(assets, id), other).Some? <==> AssetOf(assets, other).Some?
    ensures AssetOf(assets, other).Some? ==>
              AssetOf(ArchivedIn(assets, id), other).value
              == if other == id then AssetOf(assets, other).value.(archived := true) else AssetOf(assets, other).value
  {
    if assets != [] {
      ArchivedHas(assets[1..], id, other);
    }
  }

  lemma {:induction false} ArchivedSameIds(assets: seq<Asset>, id: string)
    ensures |ArchivedIn(assets, id)| == |assets|
    ensures forall i :: 0 <= i < |assets| ==> ArchivedIn(assets, id)[i].id == assets[i].id
  {
    if assets != [] {
      ArchivedSameIds(assets[1..], id);
    }
  }

  /** One asset is archived with all its versions kept; nothing else changed. */
  ghost predicate ArchivesOne(lib: Library, after: Library, at: Location) {
    && AssetAt(lib, at).Some? && AssetAt(after, at) == Some(Asset(at.assetId, AssetAt(lib, at).value.version, true))
    && (forall other :: other != at ==> AssetAt(after, other) == AssetAt(lib, other))
    && after.records == lib.records && after.documents == lib.documents && after.modules.Keys == lib.modules.Keys
    && forall m :: m in lib.modules ==> after.modules[m].active == lib.modules[m].active
  }

  lemma ArchivedOne(lib: Library, at: Location)
    requires Stored(lib, at)
    ensures ArchivesOne(lib, Archived(lib, at), at)
  {
    var assets := lib.modules[at.moduleId].assets;
    AssetIsFound(assets, at.assetId);
    forall other | other != at ensures AssetAt(Archived(lib, at), other) == AssetAt(lib, other) {
      ArchivedHas(assets, at.assetId, other.assetId);
    }
    ArchivedHas(assets, at.assetId, at.assetId);
  }

  lemma ArchiveKeeps(lib: Library, digest: Digest, at: Location)
    requires Inv(lib, digest) && Stored(lib, at)
    ensures Inv(Archived(lib, at), digest) && Grows(lib, digest, Archived(lib, at))
  {
    var after := Archived(lib, at);
    var assets := lib.modules[at.moduleId].assets;
    ArchivedSameIds(assets, at.assetId);
    assert Ids(ArchivedIn(assets, at.assetId)) == Ids(assets);
    forall other ensures Stored(after, other) <==> Stored(lib, other) {
    }
    forall other ensures VersionAt(after, other) == VersionAt(lib, other) {
      ArchivedHas(assets, at.assetId, other.assetId);
    }
  }

  // ----- publishing

  /** Publishing makes the next version of one asset, and touches no other. */
  lemma PublishedIs(lib: Library, at: Location, content: string, other: Location)
    requires at.moduleId in lib.modules
    ensures var after := Published(lib, at, content);
            && (Stored(after, other) <==> Stored(lib, other) || other == at)
            && VersionAt(after, other) == VersionAt(lib, other) + (if other == at then 1 else 0)
  {
    var assets := lib.modules[at.moduleId].assets;
    PutReplaces(assets, Asset(at.assetId, VersionAt(lib, at) + 1, false), other.assetId);
  }

  lemma PublishKeepsDocuments(lib: Library, at: Location, content: string)
    requires at.moduleId in lib.modules && DocumentsInv(lib) && ModulesInv(lib)
    ensures DocumentsInv(Published(lib, at, content))
    ensures Document(at, VersionAt(lib, at) + 1) !in lib.documents
  {
    var after := Published(lib, at, content);
    forall d: Document
      ensures d in after.documents <==> Stored(after, d.at) && 1 <= d.version <= VersionAt(after, d.at)
    {
      PublishedIs(lib, at, content, d.at);
      VersionOfStored(lib, d.at);
    }
  }

  lemma VersionOfStored(lib: Library, at: Location)
    ensures !Stored(lib, at) ==> VersionAt(lib, at) == 0
  {
    if at.moduleId in lib.modules {
      AssetIsFound(lib.modules[at.moduleId].assets, at.assetId);
    }
  }

  /** An asset is published anew only where its id denotes nothing. */
  lemma LocateStored(lib: Library, digest: Digest, moduleId: string, id: string)
    requires ModulesInv(lib) && moduleId in lib.modules
    ensures var at := Locate(lib, digest, moduleId, id);
            at.moduleId in lib.modules && (Stored(lib, at) || Free(lib, digest, at))
  {
    if !Known(lib, digest, moduleId, id) {
      var home := Home(lib.records, moduleId);
      HomeIsFinal(lib.records, moduleId);
      forall at | Names(lib, digest, home, id, at) && !Stored(lib, Location(home, id)) ensures false {
        OwnIsKnown(lib, digest, moduleId, id);
        assert Names(lib, digest, moduleId, id, at);
      }
    }
  }

  lemma PublishKeeps(lib: Library, digest: Digest, at: Location, content: string)
    requires Inv(lib, digest) && at.moduleId in lib.modules && (Stored(lib, at) || Free(lib, digest, at))
    ensures Inv(Published(lib, at, content), digest) && Grows(lib, digest, Published(lib, at, content))
  {
    var after := Published(lib, at, content);
    PublishKeepsDocuments(lib, at, content);
    forall other ensures Stored(after, other) <==> Stored(lib, other) || other == at {
      PublishedIs(lib, at, content, other);
    }
    PutDistinct(lib.modules[at.moduleId].assets, Asset(at.assetId, VersionAt(lib, at) + 1, false));
    assert Grows(lib, digest, after);
    GrowsOn(lib, digest, after);
  }

  /** What is asked to be read: a version of what the reference denotes, or its current one. */
  ghost function TextOf(lib: Library, digest: Digest, moduleId: string, id: string, version: Option<nat>)
    : Option<string>
  {
    var at := Locate(lib, digest, moduleId, id);
    var wanted := Document(at, version.GetOr(VersionAt(lib, at)));
    if AssetAt(lib, at).Some? && 1 <= wanted.version <= VersionAt(lib, at) && wanted in lib.documents
    then Some(lib.documents[wanted]) else None
  }

  /** Only these assets and documents of the library changed. */
  ghost predicate OnlyAt(lib: Library, after: Library, at: Location, d: Document) {
    && (forall other :: other != at ==> AssetAt(after, other) == AssetAt(lib, other))
    && (forall other :: other != d ==> (other in after.documents <==> other in lib.documents))
    && (forall other :: other != d && other in lib.documents ==> after.documents[other] == lib.documents[other])
    && after.records == lib.records && after.modules.Keys == lib.modules.Keys
    && forall m :: m in lib.modules ==> after.modules[m].active == lib.modules[m].active
  }

  /** A publication stores the text as the next version of one asset, which is then not archived. */
  ghost predicate Stores(lib: Library, after: Library, at: Location, content: string) {
    var version := (if AssetAt(lib, at).Some? then AssetAt(lib, at).value.version else 0) + 1;
    && Document(at, version) !in lib.documents && Document(at, version) in after.documents
    && after.documents[Document(at, version)] == content
    && AssetAt(after, at) == Some(Asset(at.assetId, version, false))
    && OnlyAt(lib, after, at, Document(at, version))
  }

  /** A module takes a new asset only below the limit; one it has takes any number of versions. */
  predicate HasRoom(lib: Library, at: Location) {
    at.moduleId in lib.modules && (AssetAt(lib, at).Some? || |lib.modules[at.moduleId].assets| < 60)
  }

  /** No module ever has more assets than the limit. */
  lemma {:induction false} AssetsStayWithin(lib: Library, digest: Digest, e: Event)
    requires Inv(lib, digest) && forall m :: m in lib.modules ==> |lib.modules[m].assets| <= 60
    ensures var after := Do(lib, digest, e); forall m :: m in after.modules ==> |after.modules[m].assets| <= 60
  {
    if e.Publish? && Publishes(lib, digest, e) {
      var at := Locate(lib, digest, e.moduleId, e.assetId);
      var assets := lib.modules[at.moduleId].assets;
      AssetIsFound(assets, at.assetId);
      WithoutIsShorter(assets, at.assetId);
    } else if e.Archive? && e.moduleId in lib.modules && Stored(lib, Locate(lib, digest, e.moduleId, e.assetId)) {
      var at := Locate(lib, digest, e.moduleId, e.assetId);
      ArchivedSameIds(lib.modules[at.moduleId].assets, at.assetId);
    }
  }

  lemma {:induction false} WithoutIsShorter(assets: seq<Asset>, id: string)
    ensures |Without(assets, id)| <= |assets| - if id in Ids(assets) then 1 else 0
  {
    if assets != [] {
      WithoutIsShorter(assets[1..], id);
      assert forall i :: 0 < i < |assets| ==> assets[i] == assets[1..][i - 1];
    }
  }

  lemma PublishedStores(lib: Library, at: Location, content: string)
    requires DocumentsInv(lib) && ModulesInv(lib) && at.moduleId in lib.modules
    ensures Stores(lib, Published(lib, at, content), at, content)
  {
    var asset := Asset(at.assetId, VersionAt(lib, at) + 1, false);
    var assets := lib.modules[at.moduleId].assets;
    PublishKeepsDocuments(lib, at, content);
    PutReplaces(assets, asset, at.assetId);
    forall other | other != at ensures AssetAt(Published(lib, at, content), other) == AssetAt(lib, other) {
      PutReplaces(assets, asset, other.assetId);
    }
  }

  // ----- migrating

  lemma MigrateKeeps(lib: Library, digest: Digest, e: Event)
    requires Inv(lib, digest) && e.Migrate? && Migrates(lib, digest, e)
    ensures var after := Do(lib, digest, e); Inv(after, digest) && Grows(lib, digest, after)
  {
    var r := Migration(e.source, e.target);
    var after := Do(lib, digest, e);
    MigrationRedirects(lib.records, r);
    forall m
      ensures Home(after.records, m) == if Home(lib.records, m) == r.source then r.target else Home(lib.records, m)
    {
      HomeMoves(lib.records, r, m);
    }
    HomeIsFinal(lib.records, r.target);
    assert forall at :: Stored(after, at) <==> Stored(lib, at);
    assert forall at :: VersionAt(after, at) == VersionAt(lib, at);
    assert SourcesOf(after.records) <= SourcesOf(lib.records) + {r.source};
    MigrateKeepsApart(lib, digest, after, r);
  }

  lemma MigrateKeepsApart(lib: Library, digest: Digest, after: Library, r: Migration)
    requires NoShadow(lib, digest) && !Conflict(lib, digest, r.source, r.target)
             && Home(lib.records, r.target) == r.target
    requires after == lib.(records := lib.records + [r])
    requires forall m ::
               Home(after.records, m) == if Home(lib.records, m) == r.source then r.target else Home(lib.records, m)
    ensures NoShadow(after, digest)
  {
    forall at: Location | Stored(after, at) && Home(after.records, at.moduleId) != at.moduleId
      ensures !Stored(after, Location(Home(after.records, at.moduleId), MigratedId(digest, at)))
    {
      var shadow := Location(r.target, MigratedId(digest, at));
      assert Stored(lib, at);
      if Home(lib.records, at.moduleId) == r.source && Stored(lib, shadow) {
        assert Shows(lib, digest, r.target, MigratedId(digest, at), shadow);
      }
    }
  }

  // ----- every run

  lemma DoKeeps(lib: Library, digest: Digest, e: Event)
    requires Inv(lib, digest)
    ensures Inv(Do(lib, digest, e), digest) && Grows(lib, digest, Do(lib, digest, e))
  {
    match e
    case Create(id) => CreateKeeps(lib, digest, id);
    case SetActive(id, active) => SetActiveKeeps(lib, digest, id, active);
    case Publish(m, x, content, _) =>
      if Publishes(lib, digest, e) {
        LocateStored(lib, digest, m, x);
        PublishKeeps(lib, digest, Locate(lib, digest, m, x), content);
      }
    case Archive(m, x) =>
      if m in lib.modules && Stored(lib, Locate(lib, digest, m, x)) {
        ArchiveKeeps(lib, digest, Locate(lib, digest, m, x));
      }
    case Migrate(source, target, _) =>
      if Migrates(lib, digest, e) {
        MigrateKeeps(lib, digest, e);
      }
  }

  /** Whatever happens later, a reference keeps its meaning and a published version its content. */
  lemma {:induction false} ReferencesLast(lib: Library, digest: Digest, events: seq<Event>, moduleId: string,
                                          id: string, at: Location)
    requires Inv(lib, digest) && Injective(digest) && Names(lib, digest, moduleId, id, at)
    ensures var after := DoAll(lib, digest, events);
            && Inv(after, digest) && Stored(after, at) && Locate(after, digest, moduleId, id) == at
            && forall d :: d in lib.documents && d.at == at ==>
                  d in after.documents && after.documents[d] == lib.documents[d]
    decreases |events|
  {
    if events == [] {
      LocateNamed(lib, digest, moduleId, id, at);
    } else {
      var next := Do(lib, digest, events[0]);
      DoKeeps(lib, digest, events[0]);
      NamesStay(lib, digest, next, moduleId, id, at);
      ReferencesLast(next, digest, events[1..], moduleId, id, at);
    }
  }

  /** In particular a reference taken from what a live module shows. */
  lemma {:induction false} ShownReferencesLast(lib: Library, digest: Digest, events: seq<Event>, moduleId: string,
                                               id: string, at: Location)
    requires Inv(lib, digest) && Injective(digest) && Shows(lib, digest, moduleId, id, at)
    ensures Locate(DoAll(lib, digest, events), digest, moduleId, id) == at
  {
    ShownIsNamed(lib, digest, moduleId, id, at);
    ReferencesLast(lib, digest, events, moduleId, id, at);
  }

  lemma StoredHasAsset(lib: Library, at: Location)
    ensures Stored(lib, at) <==> AssetAt(lib, at).Some?
  {
    if at.moduleId in lib.modules {
      AssetIsFound(lib.modules[at.moduleId].assets, at.assetId);
    }
  }

  /** What was published is what is read: at once through the reference it was published by, and after any later
      events as that version, through the module that stores it and every reference that names it. */
  lemma {:induction false} PublishedTextLasts(lib: Library, digest: Digest, e: Event, events: seq<Event>,
                                              moduleId: string, id: string)
    requires Inv(lib, digest) && Injective(digest) && e.Publish? && Publishes(lib, digest, e)
    ensures var at := Locate(lib, digest, e.moduleId, e.assetId);
            var version := (if AssetAt(lib, at).Some? then AssetAt(lib, at).value.version else 0) + 1;
            var next := Do(lib, digest, e);
            && TextOf(next, digest, e.moduleId, e.assetId, None) == Some(e.content)
            && TextOf(DoAll(next, digest, events), digest, at.moduleId, at.assetId, Some(version)) == Some(e.content)
            && (Names(next, digest, moduleId, id, at) ==>
                  TextOf(DoAll(next, digest, events), digest, moduleId, id, Some(version)) == Some(e.content))
  {
    var at := Locate(lib, digest, e.moduleId, e.assetId);
    var next := Do(lib, digest, e);
    var version := VersionAt(lib, at) + 1;
    PublishedText(lib, digest, e);
    StoredHasAsset(next, at);
    assert Names(next, digest, at.moduleId, at.assetId, at);
    VersionLasts(next, digest, events, at.moduleId, at.assetId, at, version);
    if Names(next, digest, moduleId, id, at) {
      VersionLasts(next, digest, events, moduleId, id, at, version);
    }
  }

  lemma PublishedText(lib: Library, digest: Digest, e: Event)
    requires Inv(lib, digest) && Injective(digest) && e.Publish? && Publishes(lib, digest, e)
    ensures var at := Locate(lib, digest, e.moduleId, e.assetId);
            var next := Do(lib, digest, e);
            && Inv(next, digest) && AssetAt(next, at).Some? && VersionAt(next, at) == VersionAt(lib, at) + 1
            && Document(at, VersionAt(lib, at) + 1) in next.documents
            && next.documents[Document(at, VersionAt(lib, at) + 1)] == e.content
            && TextOf(next, digest, e.moduleId, e.assetId, None) == Some(e.content)
  {
    var at := Locate(lib, digest, e.moduleId, e.assetId);
    LocateStored(lib, digest, e.moduleId, e.assetId);
    PublishedStores(lib, at, e.content);
    DoKeeps(lib, digest, e);
    PublisherFinds(lib, digest, e);
  }

  lemma {:induction false} VersionLasts(lib: Library, digest: Digest, events: seq<Event>, moduleId: string, id: string,
                                        at: Location, version: nat)
    requires Inv(lib, digest) && Injective(digest) && Names(lib, digest, moduleId, id, at)
    requires Document(at, version) in lib.documents
    ensures TextOf(DoAll(lib, digest, events), digest, moduleId, id, Some(version))
            == Some(lib.documents[Document(at, version)])
  {
    var after := DoAll(lib, digest, events);
    ReferencesLast(lib, digest, events, moduleId, id, at);
    StoredHasAsset(after, at);
    assert Document(at, version).at == at;
    assert Document(at, version) in after.documents;
  }

  /** The reference something was published by denotes it afterwards. */
  lemma PublisherFinds(lib: Library, digest: Digest, e: Event)
    requires Inv(lib, digest) && Injective(digest) && e.Publish? && Publishes(lib, digest, e)
    ensures Locate(Do(lib, digest, e), digest, e.moduleId, e.assetId) == Locate(lib, digest, e.moduleId, e.assetId)
  {
    var at := Locate(lib, digest, e.moduleId, e.assetId);
    var next := Do(lib, digest, e);
    DoKeeps(lib, digest, e);
    if Known(lib, digest, e.moduleId, e.assetId) {
      NamesStay(lib, digest, next, e.moduleId, e.assetId, at);
      LocateNamed(next, digest, e.moduleId, e.assetId, at);
    } else {
      PublishedIs(lib, at, e.content, at);
      forall other ensures Names(next, digest, e.moduleId, e.assetId, other) ==> other == at {
        PublishedIs(lib, at, e.content, other);
        PublishedIs(lib, at, e.content, Location(e.moduleId, e.assetId));
        OwnIsKnown(lib, digest, e.moduleId, e.assetId);
        assert !Names(lib, digest, e.moduleId, e.assetId, other);
        HomeIsFinal(lib.records, e.moduleId);
      }
    }
  }

  /** A reference through an old alias that falls back to an asset of the present target loses it when that
      target migrates in turn, unless the asset's own migrated id is its id. */
  lemma AliasReferenceLost(lib: Library, digest: Digest, e: Event, alias: string, id: string)
    requires Inv(lib, digest) && Injective(digest) && e.Migrate? && Migrates(lib, digest, e)
    requires !Known(lib, digest, alias, id) && Home(lib.records, alias) == e.source
    requires Stored(lib, Location(e.source, id))
    ensures Locate(Do(lib, digest, e), digest, alias, id) == Location(e.source, id)
            <==> MigratedId(digest, Location(e.source, id)) == id
  {
    var after := Do(lib, digest, e);
    var at := Location(e.source, id);
    MigrateKeeps(lib, digest, e);
    HomeMoves(lib.records, Migration(e.source, e.target), alias);
    HomeMoves(lib.records, Migration(e.source, e.target), e.source);
    HomeIsFinal(lib.records, e.source);
    OwnIsKnown(lib, digest, alias, id);
    if MigratedId(digest, at) == id {
      LocateNamed(after, digest, alias, id, at);
    } else {
      assert !Names(after, digest, alias, id, at);
    }
  }

  /** An own id of a live module that a reference falls back to is shown there. */
  lemma FallbackIsShown(lib: Library, digest: Digest, alias: string, id: string)
    requires ModulesInv(lib) && Stored(lib, Location(Home(lib.records, alias), id))
    ensures Shows(lib, digest, Home(lib.records, alias), id, Location(Home(lib.records, alias), id))
  {
    HomeIsFinal(lib.records, alias);
  }

  lemma StillUnknown(lib: Library, digest: Digest, after: Library, alias: string, id: string)
    requires !Known(lib, digest, alias, id) && ValidRecords(lib.records) && Home(lib.records, alias) != alias
    requires Grows(lib, digest, after) && after.records == lib.records
    ensures !Known(after, digest, alias, id)
  {
    HomeIsFinal(lib.records, alias);
    OwnIsKnown(lib, digest, alias, id);
    assert !Free(lib, digest, Location(alias, id));
    forall at ensures !Names(after, digest, alias, id, at) {
      if Stored(after, at) && Home(lib.records, at.moduleId) != at.moduleId {
        assert !Free(lib, digest, at);
        assert !Names(lib, digest, alias, id, at);
      }
    }
  }

  lemma MigrationKeepsUnknown(lib: Library, digest: Digest, e: Event, alias: string, id: string)
    requires Inv(lib, digest) && e.Migrate? && Migrates(lib, digest, e)
    requires !Known(lib, digest, alias, id) && Home(lib.records, alias) != e.source
    requires Stored(lib, Location(Home(lib.records, alias), id))
    ensures !Known(Do(lib, digest, e), digest, alias, id)
            && Home(Do(lib, digest, e).records, alias) == Home(lib.records, alias)
  {
    var r, home := Migration(e.source, e.target), Home(lib.records, alias);
    OwnIsKnown(lib, digest, alias, id);
    HomeMoves(lib.records, r, alias);
    FallbackIsShown(lib, digest, alias, id);
    forall at ensures !Names(Do(lib, digest, e), digest, alias, id, at) {
      HomeMoves(lib.records, r, at.moduleId);
      HomeIsFinal(lib.records, e.target);
      assert Stored(lib, at) && Home(lib.records, at.moduleId) == e.source && home == e.target ==>
            MigratedId(digest, at) != id;
      assert !Names(lib, digest, alias, id, at);
    }
  }

  /** Nothing else moves such a reference: it stays as long as its asset's module does. */
  lemma AliasReferenceStays(lib: Library, digest: Digest, e: Event, alias: string, id: string)
    requires Inv(lib, digest) && !Known(lib, digest, alias, id)
    requires Stored(lib, Location(Home(lib.records, alias), id))
    requires e.Migrate? ==> e.source != Home(lib.records, alias) || !Migrates(lib, digest, e)
    ensures var after := Do(lib, digest, e);
            && Locate(after, digest, alias, id) == Location(Home(lib.records, alias), id)
            && !Known(after, digest, alias, id) && Stored(after, Location(Home(lib.records, alias), id))
  {
    DoKeeps(lib, digest, e);
    OwnIsKnown(lib, digest, alias, id);
    if e.Migrate? && Migrates(lib, digest, e) {
      MigrationKeepsUnknown(lib, digest, e, alias, id);
    } else {
      StillUnknown(lib, digest, Do(lib, digest, e), alias, id);
    }
  }

  // ----- an alias whose reference is lost

  function Itself(text: string): string {
    text
  }

  /** Module "a" was migrated to "b", where an asset "x" was published afterwards. */
  function AliasLibrary(): Library {
    Library(map["a" := Module(true, []), "b" := Module(true, [Asset("x", 1, false)]), "c" := Module(true, [])],
            [Migration("a", "b")], map[Document(Location("b", "x"), 1) := "text"])
  }

  lemma AliasHomes(m: string)
    ensures ValidRecords(AliasLibrary().records) && SourcesOf(AliasLibrary().records) == {"a"}
    ensures Home(AliasLibrary().records, m) == if m == "a" then "b" else m
  {
    var r := Migration("a", "b");
    assert [] + [r] == AliasLibrary().records;
    assert SourcesOf([]) == {};
    HomeIsFinal([], m);
    HomeMoves([], r, m);
    MigrationRedirects([], r);
    assert AliasLibrary().records[0] == r;
  }

  lemma AliasAssets(at: Location)
    ensures Stored(AliasLibrary(), at) <==> at == Location("b", "x")
    ensures VersionAt(AliasLibrary(), at) == if at == Location("b", "x") then 1 else 0
  {
    var lib := AliasLibrary();
    assert lib.modules["b"].assets[0] == Asset("x", 1, false);
    assert Ids([Asset("x", 1, false)]) == {"x"} && Ids([]) == {};
    assert AssetOf([Asset("x", 1, false)][1..], at.assetId) == None;
    assert AssetOf([Asset("x", 1, false)], at.assetId)
           == if at.assetId == "x" then Some(Asset("x", 1, false)) else None;
  }

  lemma AliasInv()
    ensures Inv(AliasLibrary(), Itself) && Injective(Itself)
  {
    var lib := AliasLibrary();
    forall m | m in lib.modules ensures ':' !in m && Home(lib.records, m) in lib.modules {
      AliasHomes(m);
    }
    AliasHomes("a");
    forall at: Location | Stored(lib, at) ensures Home(lib.records, at.moduleId) == at.moduleId {
      AliasAssets(at);
      AliasHomes(at.moduleId);
    }
    forall d: Document ensures d in lib.documents <==> Stored(lib, d.at) && 1 <= d.version <= VersionAt(lib, d.at) {
      AliasAssets(d.at);
    }
  }

  /** When "b" migrates to "c" as well, "x" of "a" no longer denotes the asset it denoted. */
  lemma AliasReferenceIsLost()
    ensures var lib, e := AliasLibrary(), Migrate("b", "c", true);
            && Inv(lib, Itself) && Migrates(lib, Itself, e)
            && Locate(lib, Itself, "a", "x") == Location("b", "x")
            && Locate(Do(lib, Itself, e), Itself, "a", "x") != Location("b", "x")
  {
    var lib, e := AliasLibrary(), Migrate("b", "c", true);
    AliasInv();
    AliasHomes("a");
    AliasHomes("b");
    AliasHomes("c");
    HomeIsFinal(lib.records, "b");
    HomeIsFinal(lib.records, "c");
    forall at ensures !Names(lib, Itself, "a", "x", at) && !Shows(lib, Itself, "c", "x", at) {
      AliasAssets(at);
      AliasAssets(Location("a", "x"));
      AliasHomes(at.moduleId);
    }
    forall at, other | Stored(lib, at) ensures !Shows(lib, Itself, "c", MigratedId(Itself, at), other) {
      AliasAssets(other);
      AliasHomes(other.moduleId);
    }
    AliasAssets(Location("b", "x"));
    assert |MigratedId(Itself, Location("b", "x"))| != |"x"|;
    AliasReferenceLost(lib, Itself, e, "a", "x");
  }

  // ----- the library as it is kept

  datatype Entry = Entry(id: string, at: Location)

  /** The assets of one module as another one shows them. */
  function Listed(lib: Library, digest: Digest, home: string, moduleId: string): (entries: seq<Entry>)
    requires moduleId in lib.modules
    ensures |entries| == |lib.modules[moduleId].assets|
  {
    var assets := lib.modules[moduleId].assets;
    seq(|assets|, i requires 0 <= i < |assets| =>
      var at := Location(moduleId, assets[i].id);
      Entry(if moduleId == home then at.assetId else MigratedId(digest, at), at))
  }

  ghost predicate IdOf(digest: Digest, home: string, e: Entry) {
    e.id == if e.at.moduleId == home then e.at.assetId else MigratedId(digest, e.at)
  }

  /** Some modules' assets, each once. */
  ghost predicate Lists(lib: Library, digest: Digest, home: string, modules: set<string>, entries: seq<Entry>) {
    && (forall e :: e in entries <==> Stored(lib, e.at) && e.at.moduleId in modules && IdOf(digest, home, e))
    && forall i, j :: 0 <= i < j < |entries| ==> entries[i].at != entries[j].at
  }

  function Members(ids: seq<string>): set<string> {
    set s | s in ids
  }

  lemma ListedLists(lib: Library, digest: Digest, home: string, moduleId: string)
    requires moduleId in lib.modules && DistinctIds(lib.modules[moduleId].assets)
    ensures Lists(lib, digest, home, {moduleId}, Listed(lib, digest, home, moduleId))
  {
    var assets, entries := lib.modules[moduleId].assets, Listed(lib, digest, home, moduleId);
    forall e: Entry | Stored(lib, e.at) && e.at.moduleId in {moduleId} && IdOf(digest, home, e) ensures e in entries {
      var i :| 0 <= i < |assets| && assets[i].id == e.at.assetId;
      assert entries[i] == e;
    }
  }

  lemma ListsJoin(lib: Library, digest: Digest, home: string, a: set<string>, b: set<string>, first: seq<Entry>,
                  second: seq<Entry>)
    requires Lists(lib, digest, home, a, first) && Lists(lib, digest, home, b, second) && a !! b
    ensures Lists(lib, digest, home, a + b, first + second)
  {
    var both := first + second;
    forall i, j | 0 <= i < j < |both| ensures both[i].at != both[j].at {
      if i < |first| <= j {
        assert first[i] in first && second[j - |first|] in second;
      }
    }
  }

  /** The whole view of a live module lists what it shows, each id once. */
  lemma ViewShows(lib: Library, digest: Digest, home: string, modules: set<string>, view: seq<Entry>)
    requires Inv(lib, digest) && Injective(digest) && Home(lib.records, home) == home
    requires forall m :: m in modules <==> m in lib.modules && Home(lib.records, m) == home
    requires Lists(lib, digest, home, modules, view)
    ensures forall e :: e in view <==> Shows(lib, digest, home, e.id, e.at)
    ensures forall i, j :: 0 <= i < j < |view| ==> view[i].id != view[j].id
  {
    forall i, j | 0 <= i < j < |view| ensures view[i].id != view[j].id {
      assert view[i] in view && view[j] in view;
      EachAssetShownOnce(lib, digest, view[i].at);
      assert Shows(lib, digest, home, view[i].id, view[i].at) && Shows(lib, digest, home, view[j].id, view[j].at);
    }
  }

  class BusinessModuleLibrary {
    const digest: Digest
    var modules: map<string, Module>
    var records: seq<Migration>
    var documents: map<Document, string>

    ghost function Contents(): Library
      reads this
    {
      Library(modules, records, documents)
    }

    ghost predicate Valid()
      reads this
    {
      Inv(Contents(), digest) && Injective(digest)
    }

    constructor (digest: Digest)
      requires Injective(digest)
      ensures Valid() && Contents() == Library(map[], [], map[])
    {
      this.digest, modules, records, documents := digest, map[], [], map[];
    }

    method ResolveId(id: string) returns (home: string)
      requires Valid()
      ensures home == Home(records, id)
    {
      ResolutionIsTotal(records, id);
      var end := Resolve(records, id);
      home := end.value;
    }

    /** The modules that were migrated to where `target` is now, each once. */
    method ModuleSources(target: string) returns (sources: seq<string>)
      requires Valid()
      ensures forall s :: s in sources <==> s in SourcesOf(records) && Home(records, s) == target
      ensures forall i, j :: 0 <= i < j < |sources| ==> sources[i] != sources[j]
    {
      sources := [];
      for i := 0 to |records|
        invariant forall s :: s in sources <==>
                    Home(records, s) == target && exists k :: 0 <= k < i && records[k].source == s
        invariant forall a, b :: 0 <= a < b < |sources| ==> sources[a] != sources[b]
      {
        var home := ResolveId(records[i].source);
        if home == target {
          assert records[i].source !in sources;
          sources := sources + [records[i].source];
        }
      }
    }

    /** Everything the module shows that an id resolves to. */
    method ReadModule(value: string) returns (home: string, view: seq<Entry>)
      requires Valid() && value in modules
      ensures home == Home(records, value)
      ensures forall e :: e in view <==> Shows(Contents(), digest, home, e.id, e.at)
      ensures forall i, j :: 0 <= i < j < |view| ==> view[i].id != view[j].id
    {
      home := ResolveId(value);
      HomeIsFinal(records, value);
      var shown, _ := ViewOf(home);
      view := shown;
    }

    /** The view of a live module. */
    method ViewOf(home: string) returns (view: seq<Entry>, all: seq<string>)
      requires Valid() && home in modules && Home(records, home) == home
      ensures forall m :: m in all <==> m in modules && Home(records, m) == home
      ensures forall i, j :: 0 <= i < j < |all| ==> all[i] != all[j]
      ensures forall e :: e in view <==> Shows(Contents(), digest, home, e.id, e.at)
      ensures forall i, j :: 0 <= i < j < |view| ==> view[i].id != view[j].id
    {
      var sources := ModuleSources(home);
      HomeIsFinal(records, home);
      all := [home] + sources;
      forall m ensures m in all <==> m in modules && Home(records, m) == home {
        HomeIsFinal(records, m);
      }
      view := ListAll(all, home);
      ViewShows(Contents(), digest, home, Members(all), view);
    }

    method ListAll(ids: seq<string>, home: string) returns (entries: seq<Entry>)
      requires Valid()
      requires forall i :: 0 <= i < |ids| ==> ids[i] in modules
      requires forall i, j :: 0 <= i < j < |ids| ==> ids[i] != ids[j]
      ensures Lists(Contents(), digest, home, Members(ids), entries)
    {
      entries := [];
      for i := 0 to |ids|
        invariant Lists(Contents(), digest, home, Members(ids[..i]), entries)
      {
        ListedLists(Contents(), digest, home, ids[i]);
        assert ids[i] !in ids[..i];
        ListsJoin(Contents(), digest, home, Members(ids[..i]), {ids[i]}, entries,
            Listed(Contents(), digest, home, ids[i]));
        assert Members(ids[..i + 1]) == Members(ids[..i]) + {ids[i]};
        entries := entries + Listed(Library(modules, records, documents), digest, home, ids[i]);
      }
      assert ids[..|ids|] == ids;
    }

    /** The asset of a migrated module that goes by a migrated id. */
    method FindMigrated(moduleId: string, id: string) returns (found: Option<string>)
      requires moduleId in modules
      ensures found.Some? ==>
                Stored(Contents(), Location(moduleId, found.value))
                    && MigratedId(digest, Location(moduleId, found.value)) == id
      ensures found.None? ==>
                forall a :: Stored(Contents(), Location(moduleId, a)) ==>
                  MigratedId(digest, Location(moduleId, a)) != id
    {
      var assets := modules[moduleId].assets;
      for i := 0 to |assets|
        invariant forall k :: 0 <= k < i ==> MigratedId(digest, Location(moduleId, assets[k].id)) != id
      {
        if MigratedId(digest, Location(moduleId, assets[i].id)) == id {
          return Some(assets[i].id);
        }
      }
      return None;
    }

    /** What a reference denotes: the module's own asset, one of a migrated module, or else the id in the
        module where it is now. */
    method AssetLocation(moduleId: string, id: string) returns (at: Location)
      requires Valid() && moduleId in modules
      ensures at == Locate(Contents(), digest, moduleId, id)
    {
      var home := ResolveId(moduleId);
      if AssetOf(modules[moduleId].assets, id).Some? {
        AssetIsFound(modules[moduleId].assets, id);
        LocateNamed(Contents(), digest, moduleId, id, Location(moduleId, id));
        return Location(moduleId, id);
      }
      AssetIsFound(modules[moduleId].assets, id);
      var sources := ModuleSources(home);
      for i := 0 to |sources|
        invariant forall k, a :: 0 <= k < i && Stored(Contents(), Location(sources[k], a)) ==>
                    MigratedId(digest, Location(sources[k], a)) != id
      {
        assert sources[i] in sources;
        var found := FindMigrated(sources[i], id);
        if found.Some? {
          at := Location(sources[i], found.value);
          HomeIsFinal(records, sources[i]);
          LocateNamed(Contents(), digest, moduleId, id, at);
          return at;
        }
      }
      NothingNamed(moduleId, id, sources);
      return Location(home, id);
    }

    lemma NothingNamed(moduleId: string, id: string, sources: seq<string>)
      requires Valid() && !Stored(Contents(), Location(moduleId, id))
      requires forall s :: s in sources <==> s in SourcesOf(records) && Home(records, s) == Home(records, moduleId)
      requires forall k, a :: 0 <= k < |sources| && Stored(Contents(), Location(sources[k], a)) ==>
                 MigratedId(digest, Location(sources[k], a)) != id
      ensures !Known(Contents(), digest, moduleId, id)
    {
      forall at ensures !Names(Contents(), digest, moduleId, id, at) {
        HomeIsFinal(records, at.moduleId);
        assert at == Location(at.moduleId, at.assetId);
      }
    }

    method CreateModule(id: string) returns (created: bool)
      requires Valid()
      modifies this
      ensures Valid() && Contents() == Do(old(Contents()), digest, Create(id))
              && created == (ValidId(id) && id !in old(modules))
      ensures modules == if created then old(modules)[id := Module(true, [])] else old(modules)
      ensures records == old(records) && documents == old(documents)
    {
      CreateKeeps(Contents(), digest, id);
      created := ValidId(id) && id !in modules;
      if created {
        modules := modules[id := Module(true, [])];
      }
    }

    method UpdateModule(id: string, active: bool) returns (updated: bool)
      requires Valid()
      modifies this
      ensures Valid() && Contents() == Do(old(Contents()), digest, SetActive(id, active))
      ensures updated == (id in old(modules) && Home(records, id) == id)
      ensures modules == if updated then old(modules)[id := old(modules)[id].(active := active)] else old(modules)
      ensures records == old(records) && documents == old(documents)
    {
      SetActiveKeeps(Contents(), digest, id, active);
      var home := ResolveId(id);
      HomeIsFinal(records, id);
      updated := home == id && id in modules;
      if updated {
        modules := modules[id := modules[id].(active := active)];
      }
    }

    /** Publishes the next version of what a reference denotes; earlier versions stay as they are. */
    method PublishAsset(moduleId: string, id: string, content: string, accepted: bool) returns (published: bool)
      requires Valid()
      modifies this
      ensures Valid() && Contents() == Do(old(Contents()), digest, Publish(moduleId, id, content, accepted))
      ensures published <==>
                && ValidId(id) && moduleId in old(modules) && !Blank(content) && accepted
                && old(modules)[Home(old(records), moduleId)].active
                && HasRoom(old(Contents()), Locate(old(Contents()), digest, moduleId, id))
      ensures !published ==> Contents() == old(Contents())
      ensures published ==>
                Stores(old(Contents()), Contents(), Locate(old(Contents()), digest, moduleId, id), content)
    {
      DoKeeps(Contents(), digest, Publish(moduleId, id, content, accepted));
      if !ValidId(id) || moduleId !in modules {
        return false;
      }
      var at := AssetLocation(moduleId, id);
      var home := ResolveId(moduleId);
      LocateStored(Contents(), digest, moduleId, id);
      if !modules[home].active || Blank(content) || !accepted {
        return false;
      }
      var assets := modules[at.moduleId].assets;
      AssetIsFound(assets, at.assetId);
      var previous := AssetOf(assets, at.assetId);
      if previous.None? && |assets| >= MAX_ASSETS {
        return false;
      }
      var version := (if previous.Some? then previous.value.version else 0) + 1;
      if Document(at, version) in documents {
        return false;
      }
      PublishedStores(Contents(), at, content);
      StoreVersion(at, version, content);
      return true;
    }

    method StoreVersion(at: Location, version: nat, content: string)
      requires at.moduleId in modules && version == VersionAt(Contents(), at) + 1
      modifies this
      ensures Contents() == Published(old(Contents()), at, content)
    {
      var assets := Put(modules[at.moduleId].assets, Asset(at.assetId, version, false));
      documents := documents[Document(at, version) := content];
      modules := modules[at.moduleId := modules[at.moduleId].(assets := assets)];
    }

    method ArchiveAsset(moduleId: string, id: string) returns (archived: bool)
      requires Valid()
      modifies this
      ensures Valid() && Contents() == Do(old(Contents()), digest, Archive(moduleId, id))
      ensures archived ==> ArchivesOne(old(Contents()), Contents(), Locate(old(Contents()), digest, moduleId, id))
      ensures !archived ==> Contents() == old(Contents()) && (moduleId in old(modules) ==>
                              AssetAt(old(Contents()), Locate(old(Contents()), digest, moduleId, id)).None?)
    {
      DoKeeps(Contents(), digest, Archive(moduleId, id));
      if moduleId !in modules {
        return false;
      }
      var at := AssetLocation(moduleId, id);
      LocateStored(Contents(), digest, moduleId, id);
      AssetIsFound(modules[at.moduleId].assets, at.assetId);
      if AssetOf(modules[at.moduleId].assets, at.assetId).None? {
        return false;
      }
      ArchivedOne(Contents(), at);
      var assets := ArchivedIn(modules[at.moduleId].assets, at.assetId);
      modules := modules[at.moduleId := modules[at.moduleId].(assets := assets)];
      return true;
    }

    /** Whether an incoming asset would meet an id that the target already shows. */
    method Collides(shown: seq<Entry>, incoming: seq<Entry>) returns (collides: bool)
      requires forall i, j :: 0 <= i < j < |incoming| ==> incoming[i].id != incoming[j].id
      ensures collides <==> exists i, j :: 0 <= i < |shown| && 0 <= j < |incoming| && shown[i].id == incoming[j].id
    {
      var ids := set e | e in shown :: e.id;
      for j := 0 to |incoming|
        invariant forall id :: id in ids <==>
                    (exists i :: 0 <= i < |shown| && shown[i].id == id)
                    || exists k :: 0 <= k < j && incoming[k].id == id
        invariant forall i, k :: 0 <= i < |shown| && 0 <= k < j ==> shown[i].id != incoming[k].id
      {
        if incoming[j].id in ids {
          return true;
        }
        ids := ids + {incoming[j].id};
      }
      return false;
    }

    /** Moves a module to another one by a record alone, unless the target would show an id twice. */
    method MigrateModule(source: string, target: string, readable: bool) returns (migrated: bool)
      requires Valid()
      modifies this
      ensures Valid() && Contents() == Do(old(Contents()), digest, Migrate(source, target, readable))
      ensures migrated <==>
                && ValidId(source) && ValidId(target) && source != target && source in old(modules)
                && target in old(modules) && old(modules)[target].active && readable
                && Home(old(records), source) == source && Home(old(records), target) == target
                && !Conflict(old(Contents()), digest, source, target)
      ensures modules == old(modules) && documents == old(documents)
      ensures records == if migrated then old(records) + [Migration(source, target)] else old(records)
    {
      DoKeeps(Contents(), digest, Migrate(source, target, readable));
      if !ValidId(source) || !ValidId(target) || source == target {
        return false;
      }
      var from := ResolveId(source);
      var to := ResolveId(target);
      HomeIsFinal(records, source);
      HomeIsFinal(records, target);
      if from != source || to != target || source !in modules || target !in modules || !modules[target].active {
        return false;
      }
      var collides := Incoming(source, target);
      if collides || !readable {
        return false;
      }
      records := records + [Migration(source, target)];
      return true;
    }

    method Incoming(source: string, target: string) returns (collides: bool)
      requires Valid() && source in modules && target in modules && source != target
      requires Home(records, source) == source && Home(records, target) == target
      ensures collides <==> Conflict(Contents(), digest, source, target)
    {
      var shown, _ := ViewOf(target);
      var _, all := ViewOf(source);
      var incoming := ListAll(all, target);
      IncomingDiffer(source, target, Members(all), incoming);
      collides := Collides(shown, incoming);
      ConflictListed(source, target, Members(all), shown, incoming);
    }

    lemma IncomingDiffer(source: string, target: string, all: set<string>, incoming: seq<Entry>)
      requires Valid() && Home(records, target) == target != source
      requires forall m :: m in all <==> m in modules && Home(records, m) == source
      requires Lists(Contents(), digest, target, all, incoming)
      ensures forall i, j :: 0 <= i < j < |incoming| ==> incoming[i].id != incoming[j].id
    {
      forall i, j | 0 <= i < j < |incoming| ensures incoming[i].id != incoming[j].id {
        assert incoming[i] in incoming && incoming[j] in incoming;
        if incoming[i].id == incoming[j].id {
          MigratedIdsDiffer(digest, incoming[i].at, incoming[j].at);
        }
      }
    }

    lemma ConflictListed(source: string, target: string, all: set<string>, shown: seq<Entry>, incoming: seq<Entry>)
      requires Valid() && Home(records, target) == target != source
      requires forall m :: m in all <==> m in modules && Home(records, m) == source
      requires forall e :: e in shown <==> Shows(Contents(), digest, target, e.id, e.at)
      requires Lists(Contents(), digest, target, all, incoming)
      ensures Conflict(Contents(), digest, source, target)
              <==> exists i, j :: 0 <= i < |shown| && 0 <= j < |incoming| && shown[i].id == incoming[j].id
    {
      if Conflict(Contents(), digest, source, target) {
        var at: Location, other: Location :|
          && Stored(Contents(), at) && Home(records, at.moduleId) == source
          && Shows(Contents(), digest, target, MigratedId(digest, at), other);
        assert Entry(MigratedId(digest, at), other) in shown;
        assert Entry(MigratedId(digest, at), at) in incoming;
      }
      if i, j :| 0 <= i < |shown| && 0 <= j < |incoming| && shown[i].id == incoming[j].id {
        assert shown[i] in shown && incoming[j] in incoming;
        assert Shows(Contents(), digest, target, MigratedId(digest, incoming[j].at), shown[i].at);
      }
    }
  }
}
