/**
 The asset section of storeAppSetup: every asset is a JSON object edited in place, and the list
 of assets is a slice that shares its backing array with the slice the loop ranges over.
 */
module Assets {
  import opened Wrappers
  import opened Sequences
  import opened Text
  import opened AssetList

  /** A static asset as the bucket keeps it. */
  datatype StaticAsset = StaticAsset(mimeType: string, content: string)

  /** The fields of an asset's JSON object that the loop reads or writes. */
  datatype Fields = Fields(name: string, operation: Maybe<string>, content: Maybe<string>, mimeType: Maybe<string>)
  {
    predicate IsDelete() {
      operation == Just("delete")
    }

    predicate IsAdd() {
      operation == Just("add")
    }

    /** The object once its upload is in the bucket. */
    function Uploaded(file: StaticAsset): Fields {
      this.(operation := Nothing, content := Nothing, mimeType := Just(file.mimeType))
    }
  }

  /** The key of an asset in the bucket. */
  function AssetKey(app: string, name: string): string {
    app + "_" + name
  }

  /** What "data:<mime type>,<content>" uploads; anything without the separators panics. */
  function Upload(content: Maybe<string>): Maybe<StaticAsset> {
    if content.Nothing? then Nothing
    else
      var splits := GoSplit(content.value, ',');
      if |splits| < 2 || |GoSplit(splits[0], ':')| < 2 then Nothing
      else Just(StaticAsset(GoSplit(splits[0], ':')[1], splits[1]))
  }

  /** A request to the bucket. */
  datatype Request = Put(key: string, file: StaticAsset) | Remove(key: string)

  class Asset {
    var fields: Fields
  }

  function Answered(files: map<string, StaticAsset>, request: Request): map<string, StaticAsset> {
    match request
    case Put(key, file) => files[key := file]
    case Remove(key) => files - {key}
  }

  /** What requests make of an empty bucket. */
  function Replay(requests: seq<Request>): map<string, StaticAsset> {
    if requests == [] then map[] else Answered(Replay(requests[..|requests| - 1]), requests[|requests| - 1])
  }

  lemma ReplaySnoc(requests: seq<Request>, request: Request)
    ensures Replay(requests + [request]) == Answered(Replay(requests), request)
  {
    assert (requests + [request])[..|requests|] == requests;
  }

  class AssetBucket {
    var files: map<string, StaticAsset>
    ghost var requests: seq<Request>   // every request the bucket has had

    ghost predicate Valid()
      reads this
    {
      files == Replay(requests)
    }

    constructor ()
      ensures Valid() && requests == []
    {
      files, requests := map[], [];
    }

    method Delete(key: string)
      requires Valid()
      modifies this
      ensures Valid() && requests == old(requests) + [Remove(key)]
    {
      ReplaySnoc(requests, Remove(key));
      files := files - {key};
      requests := requests + [Remove(key)];
    }

    method SetRaw(key: string, file: StaticAsset)
      requires Valid()
      modifies this
      ensures Valid() && requests == old(requests) + [Put(key, file)]
    {
      ReplaySnoc(requests, Put(key, file));
      files := files[key := file];
      requests := requests + [Put(key, file)];
    }
  }

  // ---------------------------------------------------------------- what the loop asks for

  /** The fields of every asset when the request arrives. */
  type View = map<Asset, Fields>

  ghost function Snapshot(all: seq<Asset>): (view: View)
    reads all
    ensures view.Keys == set a | a in all
    ensures forall a :: a in all ==> view[a] == a.fields
  {
    map a | a in all :: a.fields
  }

  ghost predicate Covers(view: View, all: seq<Asset>) {
    forall a :: a in all ==> a in view
  }

  ghost function Doomed(view: View): set<Asset> {
    set a | a in view && view[a].IsDelete()
  }

  /** The upload of an asset, as it came. */
  ghost function FileOf(view: View, a: Asset): Maybe<StaticAsset>
    requires a in view
  {
    Upload(view[a].content)
  }

  /** An asset that makes the loop panic when it is looked at: an upload that is not well formed,
      or any request at all if there is no bucket to make it of. */
  ghost predicate Trips(view: View, a: Asset, stored: bool) {
    && a in view
    && ((view[a].IsAdd() && FileOf(view, a).Nothing?) || (!stored && (view[a].IsAdd() || view[a].IsDelete())))
  }

  /** The requests for a run of looked-at assets: a deletion every time, an upload only the
      first time. */
  ghost function Requests(app: string, view: View, looked: seq<Asset>): seq<Request>
    requires Covers(view, looked)
  {
    if looked == [] then []
    else
      var n := |looked| - 1;
      var a := looked[n];
      var key := AssetKey(app, view[a].name);
      Requests(app, view, looked[..n])
      + if view[a].IsDelete() then [Remove(key)]
        else if view[a].IsAdd() && FileOf(view, a).Just? && a !in looked[..n] then [Put(key, FileOf(view, a).value)]
        else []
  }

  /** The fields of an asset after some assets have been looked at. */
  ghost function FieldsAfter(view: View, looked: seq<Asset>, a: Asset): Fields
    requires a in view
  {
    if a in looked && view[a].IsAdd() && FileOf(view, a).Just? then view[a].Uploaded(FileOf(view, a).value) else view[a]
  }

  // ---------------------------------------------------------------- the loop

  /** Moves the entries behind index i one place down. */
  method ShiftDown(assets: array<Asset>, len: nat, i: nat)
    requires i < len <= assets.Length
    modifies assets
    ensures assets[..] == Shifted(old(assets[..]), len, i)
  {
    var k := i;
    while k + 1 < len
      invariant i <= k < len
      invariant assets[..k] == Shifted(old(assets[..]), len, i)[..k]
      invariant forall j :: k <= j < assets.Length ==> assets[j] == old(assets[j])
    {
      assets[k] := assets[k + 1];
      k := k + 1;
    }
    assert assets[..] == assets[..k] + assets[k..];
  }

  /** The slice part of a deletion: append(s[:index], s[index+1:]...), or the empty slice. */
  method Shrink(assets: array<Asset>, len: nat, index: nat) returns (shorter: nat, panicked: bool)
    requires index < assets.Length && len <= assets.Length
    modifies assets
    ensures panicked <==> len > 1 && index >= len
    ensures !panicked ==> shorter == (if len > 1 then len - 1 else 0)
    ensures assets[..] == if len > 1 && index < len then Shifted(old(assets[..]), len, index) else old(assets[..])
  {
    shorter, panicked := 0, false;
    if len > 1 {
      if index < len {
        ShiftDown(assets, len, index);
        shorter := len - 1;
      } else {
        panicked := true;
      }
    }
  }

  /** An app without a path on record has no bucket. */
  ghost predicate Ready(bucket: AssetBucket?)
    reads bucket
  {
    bucket != null ==> bucket.Valid()
  }

  ghost function Log(bucket: AssetBucket?): seq<Request>
    reads bucket
  {
    if bucket == null then [] else bucket.requests
  }

  /** The bucket and object part of one iteration. */
  method Perform(app: string, asset: Asset, bucket: AssetBucket?) returns (panicked: bool)
    requires Ready(bucket)
    modifies asset, bucket
    ensures Ready(bucket)
    ensures panicked <==> || (old(asset.fields).IsAdd() && Upload(old(asset.fields).content).Nothing?)
                          || (bucket == null && (old(asset.fields).IsAdd() || old(asset.fields).IsDelete()))
    ensures !panicked ==> asset.fields == Performed(old(asset.fields))
    ensures !panicked ==> Log(bucket) == old(Log(bucket)) + Asked(app, old(asset.fields))
  {
    panicked := false;
    var key := AssetKey(app, asset.fields.name);
    if asset.fields.IsDelete() {
      if bucket == null {
        panicked := true;
      } else {
        bucket.Delete(key);
      }
    } else if asset.fields.IsAdd() {
      var file := Upload(asset.fields.content);
      if file.Nothing? || bucket == null {
        panicked := true;
      } else {
        bucket.SetRaw(key, file.value);
        asset.fields := asset.fields.Uploaded(file.value);
      }
    }
  }

  function Performed(f: Fields): Fields {
    if f.IsAdd() && Upload(f.content).Just? then f.Uploaded(Upload(f.content).value) else f
  }

  function Asked(app: string, f: Fields): seq<Request> {
    if f.IsDelete() then [Remove(AssetKey(app, f.name))]
    else if f.IsAdd() && Upload(f.content).Just? then [Put(AssetKey(app, f.name), Upload(f.content).value)]
    else []
  }

  lemma LookedOnce(app: string, view: View, seen: seq<Asset>, a: Asset)
    requires Covers(view, seen) && a in view
    ensures Covers(view, seen + [a])
    ensures Requests(app, view, seen + [a]) == Requests(app, view, seen) + Asked(app, FieldsAfter(view, seen, a))
    ensures FieldsAfter(view, seen + [a], a) == Performed(FieldsAfter(view, seen, a))
    ensures forall b :: b in view && b != a ==> FieldsAfter(view, seen + [a], b) == FieldsAfter(view, seen, b)
  {
    assert (seen + [a])[..|seen|] == seen;
  }

  /** A step of the loop, told on values. */
  lemma LoopStep(backing: seq<Asset>, len: nat, i: nat, doomed: set<Asset>, next: seq<Asset>, shorter: nat)
    requires i < |backing| && len <= |backing|
    requires backing[i] !in doomed ==> next == backing && shorter == len
    requires backing[i] in doomed && len > 1 ==> i < len && next == Shifted(backing, len, i) && shorter == len - 1
    requires backing[i] in doomed && len <= 1 ==> next == backing && shorter == 0
    ensures |next| == |backing| && shorter <= |next|
    ensures Loop(backing, len, i, doomed) == Loop(next, shorter, i + 1, doomed)
    ensures Looked(backing, len, i, doomed) == [backing[i]] + Looked(next, shorter, i + 1, doomed)
    ensures forall a :: a in next ==> a in backing
  {
  }

  /** Where an iteration panics, so does the specification. */
  lemma LoopPanics(backing: seq<Asset>, len: nat, i: nat, doomed: set<Asset>)
    requires i < |backing| && len <= |backing| && backing[i] in doomed && len > 1 && i >= len
    ensures Loop(backing, len, i, doomed) == Panic
  {
  }

  ghost predicate AllAs(view: View, seen: seq<Asset>)
    reads view.Keys
  {
    forall a :: a in view ==> a.fields == FieldsAfter(view, seen, a)
  }

  ghost predicate NoneTrips(view: View, seen: seq<Asset>, stored: bool) {
    forall a :: a in seen ==> !Trips(view, a, stored)
  }

  /** What is known before iteration `index`: the iterations so far looked at `seen`, and the
      rest of the loop ends as the whole loop does. */
  ghost predicate Underway(app: string, backing: seq<Asset>, requests: seq<Request>, len: nat, index: nat,
                           all: seq<Asset>, view: View, seen: seq<Asset>, base: seq<Request>, stored: bool)
  {
    && index <= |backing| && len <= |backing|
    && Covers(view, backing) && Covers(view, seen) && NoneTrips(view, seen, stored)
    && Loop(backing, len, index, Doomed(view)) == Loop(all, |all|, 0, Doomed(view))
    && seen + Looked(backing, len, index, Doomed(view)) == Looked(all, |all|, 0, Doomed(view))
    && requests == base + Requests(app, view, seen)
  }

  lemma UnderwayStep(app: string, backing: seq<Asset>, requests: seq<Request>, len: nat, index: nat,
                     all: seq<Asset>, view: View, seen: seq<Asset>, base: seq<Request>, stored: bool,
                     next: seq<Asset>, shorter: nat)
    requires Underway(app, backing, requests, len, index, all, view, seen, base, stored) && index < |backing|
    requires var a := backing[index];
             && a in view && !Trips(view, a, stored)
             && (!view[a].IsDelete() ==> next == backing && shorter == len)
             && (view[a].IsDelete() && len > 1 ==> index < len && next == Shifted(backing, len, index) && shorter == len - 1)
             && (view[a].IsDelete() && len <= 1 ==> next == backing && shorter == 0)
    ensures var a := backing[index];
            Underway(app, next, requests + Asked(app, FieldsAfter(view, seen, a)), shorter, index + 1,
                     all, view, seen + [a], base, stored)
  {
    var a := backing[index];
    LookedOnce(app, view, seen, a);
    LoopStep(backing, len, index, Doomed(view), next, shorter);
    Assoc(base, Requests(app, view, seen), Asked(app, FieldsAfter(view, seen, a)));
    Assoc(seen, [a], Looked(next, shorter, index + 1, Doomed(view)));
  }

  /** One iteration. */
  method EditOne(app: string, assets: array<Asset>, bucket: AssetBucket?, len: nat, index: nat,
                 ghost all: seq<Asset>, ghost view: View, ghost seen: seq<Asset>, ghost base: seq<Request>)
    returns (shorter: nat, panicked: bool)
    requires index < assets.Length && AllAs(view, seen) && Ready(bucket)
    requires Underway(app, assets[..], Log(bucket), len, index, all, view, seen, base, bucket != null)
    modifies assets, bucket, assets[index]
    ensures Ready(bucket)
    ensures panicked ==> Loop(all, |all|, 0, Doomed(view)).Panic?
                         || !NoneTrips(view, Looked(all, |all|, 0, Doomed(view)), bucket != null)
    ensures !panicked ==>
              && AllAs(view, seen + [old(assets[index])])
              && Underway(app, assets[..], Log(bucket), shorter, index + 1, all, view,
                          seen + [old(assets[index])], base, bucket != null)
  {
    var asset := assets[index];
    ghost var backing, requests := assets[..], Log(bucket);
    assert asset in view;
    var deleting := asset.fields.IsDelete();
    LookedOnce(app, view, seen, asset);
    shorter := len;
    panicked := Perform(app, asset, bucket);
    if panicked {
      assert asset in seen + Looked(backing, len, index, Doomed(view));
    } else {
      if deleting {
        shorter, panicked := Shrink(assets, len, index);
      }
      if panicked {
        LoopPanics(backing, len, index, Doomed(view));
      } else {
        UnderwayStep(app, backing, requests, len, index, all, view, seen, base, bucket != null, assets[..], shorter);
      }
    }
  }

  /** The loop over an alias of the whole backing array; `len` is how long the edited slice is. */
  method EditAssets(app: string, assets: array<Asset>, bucket: AssetBucket?) returns (len: nat, panicked: bool)
    requires Ready(bucket)
    modifies assets, bucket, assets[..]
    ensures Ready(bucket)
    ensures var all := old(assets[..]);
            var view := old(Snapshot(assets[..]));
            var outcome := Loop(all, |all|, 0, Doomed(view));
            var looked := Looked(all, |all|, 0, Doomed(view));
            && (panicked <==> outcome.Panic? || !NoneTrips(view, looked, bucket != null))
            && (!panicked ==>
                  && len <= assets.Length
                  && outcome == Done(assets[..len])
                  && Covers(view, looked)
                  && Log(bucket) == old(Log(bucket)) + Requests(app, view, looked)
                  && AllAs(view, looked))
  {
    len := assets.Length;
    panicked := false;
    ghost var all := assets[..];
    ghost var view := Snapshot(assets[..]);
    ghost var seen: seq<Asset> := [];
    var index := 0;
    while index < assets.Length
      invariant index <= assets.Length && !panicked && AllAs(view, seen) && Ready(bucket)
      invariant Underway(app, assets[..], Log(bucket), len, index, all, view, seen, old(Log(bucket)), bucket != null)
    {
      ghost var asset := assets[index];
      assert asset in view;
      len, panicked := EditOne(app, assets, bucket, len, index, all, view, seen, old(Log(bucket)));
      if panicked {
        return;
      }
      seen := seen + [asset];
      index := index + 1;
    }
    assert seen == Looked(all, |all|, 0, Doomed(view));
  }

  // ---------------------------------------------------------------- uploads happen once

  ghost function Puts(requests: seq<Request>, key: string): nat {
    if requests == [] then 0
    else Puts(requests[..|requests| - 1], key)
         + if requests[|requests| - 1].Put? && requests[|requests| - 1].key == key then 1 else 0
  }

  lemma PutsSnoc(requests: seq<Request>, more: seq<Request>, key: string)
    requires |more| <= 1
    ensures Puts(requests + more, key) == Puts(requests, key) + Puts(more, key)
  {
    if more == [] {
      assert requests + more == requests;
    } else {
      assert (requests + more)[..|requests|] == requests && more[..0] == [];
    }
  }

  lemma KeyTellsName(app: string, a: string, b: string)
    requires AssetKey(app, a) == AssetKey(app, b)
    ensures a == b
  {
    assert AssetKey(app, a)[|app| + 1..] == a;
    assert AssetKey(app, b)[|app| + 1..] == b;
  }

  ghost predicate NamesDiffer(view: View) {
    forall a, b :: a in view && b in view && view[a].name == view[b].name ==> a == b
  }

  lemma OneLook(app: string, view: View, seen: seq<Asset>, a: Asset, b: Asset)
    requires NamesDiffer(view) && a in view && b in view
    requires view[a].IsAdd() && FileOf(view, a).Just?
    ensures Puts(Asked(app, FieldsAfter(view, seen, b)), AssetKey(app, view[a].name))
            == if a == b && a !in seen then 1 else 0
  {
    var asked := Asked(app, FieldsAfter(view, seen, b));
    if asked != [] {
      assert asked[..0] == [];
      if AssetKey(app, view[b].name) == AssetKey(app, view[a].name) {
        KeyTellsName(app, view[b].name, view[a].name);
      }
    }
  }

  /** However often the loop looks at an asset, its upload is stored once. */
  lemma {:induction false} UploadedOnce(app: string, view: View, looked: seq<Asset>, a: Asset)
    requires Covers(view, looked) && NamesDiffer(view)
    requires a in view && view[a].IsAdd() && FileOf(view, a).Just?
    ensures Puts(Requests(app, view, looked), AssetKey(app, view[a].name)) == if a in looked then 1 else 0
  {
    if looked != [] {
      var n := |looked| - 1;
      var seen, b := looked[..n], looked[n];
      UploadedOnce(app, view, seen, a);
      LookedOnce(app, view, seen, b);
      assert looked == seen + [b];
      PutsSnoc(Requests(app, view, seen), Asked(app, FieldsAfter(view, seen, b)), AssetKey(app, view[a].name));
      OneLook(app, view, seen, a, b);
    }
  }

  /** With at most one deletion the list is edited right, and every upload is stored once,
      except that of an asset that stands directly behind the deleted one and is not the last. */
  lemma OneDeletion(app: string, view: View, all: seq<Asset>, j: nat)
    requires Covers(view, all) && Distinct(all) && NamesDiffer(view)
    requires Deletes(all, 0, Doomed(view)) <= 1
    requires j < |all| && view[all[j]].IsAdd() && FileOf(view, all[j]).Just?
    ensures Covers(view, Looked(all, |all|, 0, Doomed(view)))
    ensures Loop(all, |all|, 0, Doomed(view)) == Done(Kept(all, 0, Doomed(view)))
    ensures var requests := Requests(app, view, Looked(all, |all|, 0, Doomed(view)));
            Puts(requests, AssetKey(app, view[all[j]].name))
            == if j == 0 || !view[all[j - 1]].IsDelete() || j == |all| - 1 then 1 else 0
  {
    var doomed := Doomed(view);
    LookedInside(all, |all|, 0, doomed);
    OneDeleteFits(all, doomed);
    EditIsRight(all, doomed);
    UploadedOnce(app, view, Looked(all, |all|, 0, doomed), all[j]);
    LooksAt(all, doomed, j);
  }

  // ---------------------------------------------------------------- what is stored

  /** What "data:<mime type>,<content>" uploads. */
  lemma UploadOf(mime: string, content: string)
    requires ',' !in mime && ':' !in mime && ',' !in content
    ensures Upload(Just("data:" + mime + "," + content)) == Just(StaticAsset(mime, content))
  {
    var head := "data:" + mime;
    assert head + "," + content == head + [','] + content;
    GoSplitConcat(head, content, ',');
    GoSplitWhole(head, ',');
    GoSplitWhole(content, ',');
    assert head == "data" + [':'] + mime;
    GoSplitConcat("data", mime, ':');
    GoSplitWhole("data", ':');
    GoSplitWhole(mime, ':');
  }

  /** An upload on its own: what is asked of the bucket, and what is left of the object. */
  lemma OneUpload(app: string, name: string, mime: string, content: string, a: Asset)
    requires ',' !in mime && ':' !in mime && ',' !in content
    ensures var view := map[a := Fields(name, Just("add"), Just("data:" + mime + "," + content), Nothing)];
            && Covers(view, [a])
            && Requests(app, view, [a]) == [Put(app + "_" + name, StaticAsset(mime, content))]
            && FieldsAfter(view, [a], a) == Fields(name, Nothing, Nothing, Just(mime))
  {
    UploadOf(mime, content);
    var view := map[a := Fields(name, Just("add"), Just("data:" + mime + "," + content), Nothing)];
    assert [a][..0] == [] && Requests(app, view, []) == [];
  }

  /** A deletion on its own. */
  lemma OneDeleteRequest(app: string, name: string, content: Maybe<string>, a: Asset)
    ensures var view := map[a := Fields(name, Just("delete"), content, Nothing)];
            && Covers(view, [a]) && Doomed(view) == {a}
            && Requests(app, view, [a]) == [Remove(app + "_" + name)] && FieldsAfter(view, [a], a) == view[a]
  {
    var view := map[a := Fields(name, Just("delete"), content, Nothing)];
    assert [a][..0] == [] && Requests(app, view, []) == [];
  }
}
