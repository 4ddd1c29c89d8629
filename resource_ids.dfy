/**
 * The generic Azure resource ID parser that every typed ID parser of the
 * provider builds on (`azure.ParseAzureResourceID`, `PopSegment`,
 * `ValidateNoEmptySegments`).  An ID is a path of `/key/value` pairs; the
 * first `subscriptions` pair, the `resourceGroups` pair and the `providers`
 * pair are set aside and the remaining pairs form the ID's `Path`.
 *
 * The Path is an ordered sequence of pairs with distinct keys rather than a
 * hash map: a later pair with the same key overwrites the earlier value in
 * place, and iteration follows first-insertion order.
 */
module ResourceIds {
  import opened Common
  import opened Strings

  datatype Segment = Segment(key: string, value: string)

  datatype ResourceId = ResourceId(
    subscriptionId: string,
    resourceGroup: string,
    provider: string,
    path: seq<Segment>)

  /** A key or value as it can appear between two slashes of an ID. */
  predicate IsSegmentText(t: string)
  {
    t != "" && '/' !in t
  }

  predicate UniqueKeys(path: seq<Segment>)
  {
    forall i, j :: 0 <= i < j < |path| ==> path[i].key != path[j].key
  }

  /** Every pair has a non-empty, slash-free key and value, and keys are distinct. */
  predicate WellFormedPath(path: seq<Segment>)
  {
    UniqueKeys(path) &&
    forall i :: 0 <= i < |path| ==> IsSegmentText(path[i].key) && IsSegmentText(path[i].value)
  }

  /** The value stored under `k`. */
  function Lookup(path: seq<Segment>, k: string): (r: Option<string>)
    ensures r.Some? <==> exists i :: 0 <= i < |path| && path[i].key == k
    ensures r.Some? ==> exists i :: 0 <= i < |path| && path[i] == Segment(k, r.value)
  {
    if |path| == 0 then None
    else if path[0].key == k then Some(path[0].value)
    else
      var r := Lookup(path[1..], k);
      assert forall i :: 1 <= i < |path| ==> path[i] == path[1..][i - 1];
      r
  }

  /** Go's `m[k]` on the path: the stored value, or "" when the key is absent. */
  function PathValue(path: seq<Segment>, k: string): (v: string)
    ensures Lookup(path, k).Some? ==> v == Lookup(path, k).value
    ensures Lookup(path, k).None? ==> v == ""
  {
    match Lookup(path, k)
    case Some(v) => v
    case None => ""
  }

  /** `Path[k] = v`: overwrites the value of an existing key in place, or appends. */
  function Put(path: seq<Segment>, k: string, v: string): seq<Segment>
  {
    if |path| == 0 then [Segment(k, v)]
    else if path[0].key == k then [Segment(k, v)] + path[1..]
    else [path[0]] + Put(path[1..], k, v)
  }

  /** Storing a pair adds no pair but that one and keeps the keys distinct. */
  lemma {:induction false} PutFacts(path: seq<Segment>, k: string, v: string)
    ensures forall i :: 0 <= i < |Put(path, k, v)| ==> Put(path, k, v)[i] == Segment(k, v) || Put(path, k, v)[i] in path
    ensures UniqueKeys(path) ==> UniqueKeys(Put(path, k, v))
    decreases |path|
  {
    if |path| > 0 {
      PutFacts(path[1..], k, v);
      var r := Put(path, k, v);
      assert forall x :: x in path[1..] ==> x in path;
      if path[0].key == k {
        assert forall i :: 1 <= i < |r| ==> r[i] == path[i];
      } else {
        var r1 := Put(path[1..], k, v);
        assert r == [path[0]] + r1;
        assert forall i :: 1 <= i < |r| ==> r[i] == r1[i - 1];
        if UniqueKeys(path) {
          forall i | 0 <= i < |r1| ensures r1[i].key != path[0].key {
            if r1[i] != Segment(k, v) {
              var j :| 0 <= j < |path[1..]| && path[1..][j] == r1[i];
              assert path[j + 1] == r1[i];
            }
          }
        }
      }
    }
  }

  /** `delete(Path, k)`. */
  function Remove(path: seq<Segment>, k: string): (r: seq<Segment>)
  {
    if |path| == 0 then []
    else if path[0].key == k then Remove(path[1..], k)
    else [path[0]] + Remove(path[1..], k)
  }

  /** `[k0, v0, k1, v1, ...]` read as the pairs `(k0, v0), (k1, v1), ...`. */
  function Pairs(components: seq<string>): (ps: seq<Segment>)
    requires |components| % 2 == 0
    ensures |ps| * 2 == |components|
  {
    if |components| == 0 then [] else [Segment(components[0], components[1])] + Pairs(components[2..])
  }

  lemma {:induction false} PairsAt(components: seq<string>)
    requires |components| % 2 == 0
    ensures forall i :: 0 <= i < |Pairs(components)| ==>
      Pairs(components)[i] == Segment(components[2 * i], components[2 * i + 1])
    decreases |components|
  {
    if |components| > 0 {
      PairsAt(components[2..]);
    }
  }

  /** The pairs written out as a flat list of path components. */
  function Flatten(ps: seq<Segment>): (components: seq<string>)
    ensures |components| == 2 * |ps|
  {
    if |ps| == 0 then [] else [ps[0].key, ps[0].value] + Flatten(ps[1..])
  }

  lemma {:induction false} FlattenAt(ps: seq<Segment>)
    ensures forall i :: 0 <= i < |ps| ==> Flatten(ps)[2 * i] == ps[i].key && Flatten(ps)[2 * i + 1] == ps[i].value
    decreases |ps|
  {
    if |ps| > 0 {
      FlattenAt(ps[1..]);
    }
  }

  /** The path components of an ID: one leading and one trailing slash trimmed, then split on "/". */
  function Components(input: string): seq<string>
  {
    Split(TrimSuffix(TrimPrefix(input, "/"), "/"), "/")
  }

  /**
   * The pair loop of the parser: a pair with an empty key or value is an
   * error; the first `subscriptions` value is captured; every other pair is
   * stored in the Path.
   */
  function Collect(ps: seq<Segment>, subscription: string, path: seq<Segment>): (r: Result<(string, seq<Segment>)>)
    ensures r.Ok? ==> (r.value.0 == subscription || subscription == "")
  {
    if |ps| == 0 then Ok((subscription, path))
    else
      var Segment(k, v) := ps[0];
      if k == "" || v == "" then Err(MalformedId("empty key or value"))
      else if k == "subscriptions" && subscription == "" then Collect(ps[1..], v, path)
      else Collect(ps[1..], subscription, Put(path, k, v))
  }

  /** From slash-free pairs the loop collects proper texts into a well-formed Path. */
  lemma {:induction false} CollectWellFormed(ps: seq<Segment>, subscription: string, path: seq<Segment>)
    requires subscription == "" || IsSegmentText(subscription)
    requires WellFormedPath(path)
    requires forall i :: 0 <= i < |ps| ==> '/' !in ps[i].key && '/' !in ps[i].value
    ensures Collect(ps, subscription, path).Ok? ==>
      var (sub, p) := Collect(ps, subscription, path).value;
      (sub == "" || IsSegmentText(sub)) && WellFormedPath(p)
    decreases |ps|
  {
    if |ps| > 0 {
      var Segment(k, v) := ps[0];
      assert forall i :: 1 <= i < |ps| ==> ps[i] == ps[1..][i - 1];
      if !(k == "" || v == "") {
        if k == "subscriptions" && subscription == "" {
          CollectWellFormed(ps[1..], v, path);
        } else {
          PutFacts(path, k, v);
          CollectWellFormed(ps[1..], subscription, Put(path, k, v));
        }
      }
    }
  }

  /** The loop fails exactly when some pair has an empty key or value. */
  lemma {:induction false} CollectErr(ps: seq<Segment>, subscription: string, path: seq<Segment>)
    ensures Collect(ps, subscription, path).Err? <==> exists i :: 0 <= i < |ps| && (ps[i].key == "" || ps[i].value == "")
    decreases |ps|
  {
    if |ps| > 0 {
      assert forall i :: 1 <= i < |ps| ==> ps[i] == ps[1..][i - 1];
      var Segment(k, v) := ps[0];
      if !(k == "" || v == "") {
        if k == "subscriptions" && subscription == "" {
          CollectErr(ps[1..], v, path);
        } else {
          CollectErr(ps[1..], subscription, Put(path, k, v));
        }
        if exists i :: 0 <= i < |ps| && (ps[i].key == "" || ps[i].value == "") {
          var i :| 0 <= i < |ps| && (ps[i].key == "" || ps[i].value == "");
          assert ps[1..][i - 1] == ps[i];
        }
      }
    }
  }

  /** What the parser builds from the pairs of an ID. */
  function FromPairs(ps: seq<Segment>): Result<ResourceId>
  {
    var (subscription, path) :- Collect(ps, "", []);
    if subscription == "" then Err(MissingSegment("subscriptions"))
    else
      var resourceGroup := if Lookup(path, "resourceGroups").Some? then Lookup(path, "resourceGroups").value else "";
      var path1 := Remove(path, "resourceGroups");
      var provider := if Lookup(path1, "providers").Some? then Lookup(path1, "providers").value else "";
      var path2 := Remove(path1, "providers");
      Ok(ResourceId(subscription, resourceGroup, provider, path2))
  }

  /** Pairs free of slashes give proper texts and a well-formed Path without the set-aside keys. */
  lemma FromPairsFacts(ps: seq<Segment>)
    requires forall i :: 0 <= i < |ps| ==> '/' !in ps[i].key && '/' !in ps[i].value
    ensures FromPairs(ps).Ok? ==> IsSegmentText(FromPairs(ps).value.subscriptionId)
    ensures FromPairs(ps).Ok? ==> FromPairs(ps).value.resourceGroup == "" || IsSegmentText(FromPairs(ps).value.resourceGroup)
    ensures FromPairs(ps).Ok? ==> WellFormedPath(FromPairs(ps).value.path)
    ensures FromPairs(ps).Ok? ==> Lookup(FromPairs(ps).value.path, "resourceGroups").None?
    ensures FromPairs(ps).Ok? ==> Lookup(FromPairs(ps).value.path, "providers").None?
  {
    if FromPairs(ps).Ok? {
      CollectWellFormed(ps, "", []);
      var (subscription, path) := Collect(ps, "", []).value;
      var path1 := Remove(path, "resourceGroups");
      RemoveFacts(path, "resourceGroups");
      RemoveFacts(path1, "providers");
      var path2 := Remove(path1, "providers");
      assert path2 == FromPairs(ps).value.path;
      assert WellFormedPath(path1);
      assert WellFormedPath(path2);
      assert KeyAbsent(path2, "resourceGroups");
      LookupAbsent(path2, "resourceGroups");
      LookupAbsent(path2, "providers");
    }
  }

  /** `azure.ParseAzureResourceID` on a request path. */
  function Parse(input: string): (r: Result<ResourceId>)
    ensures r.Ok? ==> IsSegmentText(r.value.subscriptionId)
    ensures r.Ok? ==> r.value.resourceGroup == "" || IsSegmentText(r.value.resourceGroup)
    ensures r.Ok? ==> WellFormedPath(r.value.path)
    ensures r.Ok? ==> Lookup(r.value.path, "resourceGroups").None? && Lookup(r.value.path, "providers").None?
    ensures !HasPrefix(input, "/") ==> r.Err?
  {
    if !HasPrefix(input, "/") then Err(MalformedId("not a request path"))
    else
      var components := Components(input);
      if |components| % 2 != 0 then Err(MalformedId("odd number of path segments"))
      else
        SplitPiecesFree(TrimSuffix(TrimPrefix(input, "/"), "/"), '/');
        var ps := Pairs(components);
        PairsAt(components);
        assert forall i :: 0 <= i < |ps| ==> '/' !in ps[i].key && '/' !in ps[i].value;
        FromPairsFacts(ps);
        FromPairs(ps)
  }

  /** `PopSegment`: takes the value of key `k` out of the Path. */
  function PopSegment(path: seq<Segment>, k: string): (r: Result<(string, seq<Segment>)>)
    ensures r.Ok? <==> Lookup(path, k).Some? && Lookup(path, k).value != ""
    ensures r.Ok? ==> r.value.0 == Lookup(path, k).value && r.value.1 == Remove(path, k)
    ensures r.Ok? && WellFormedPath(path) ==> WellFormedPath(r.value.1)
    ensures r.Err? ==> r.error == MissingSegment(k)
  {
    RemoveFacts(path, k);
    match Lookup(path, k)
    case Some(v) => if v == "" then Err(MissingSegment(k)) else Ok((v, Remove(path, k)))
    case None => Err(MissingSegment(k))
  }

  /** `ValidateNoEmptySegments`: nothing may remain once the expected pairs are taken. */
  function ValidateNoEmptySegments(path: seq<Segment>): (r: Result<()>)
    ensures r.Ok? <==> path == []
  {
    if path == [] then Ok(()) else Err(ExtraSegments)
  }

  /** Removal keeps only pairs of the path under other keys, and keeps the keys distinct. */
  lemma {:induction false} RemoveFacts(path: seq<Segment>, k: string)
    ensures forall i :: 0 <= i < |Remove(path, k)| ==> Remove(path, k)[i] in path && Remove(path, k)[i].key != k
    ensures UniqueKeys(path) ==> UniqueKeys(Remove(path, k))
    decreases |path|
  {
    if |path| > 0 {
      RemoveFacts(path[1..], k);
      var r := Remove(path, k);
      var r1 := Remove(path[1..], k);
      assert forall x :: x in path[1..] ==> x in path;
      if path[0].key != k {
        assert r == [path[0]] + r1;
        assert forall i :: 1 <= i < |r| ==> r[i] == r1[i - 1];
        if UniqueKeys(path) {
          forall i | 0 <= i < |r1| ensures r1[i].key != path[0].key {
            var j :| 0 <= j < |path[1..]| && path[1..][j] == r1[i];
            assert path[j + 1] == r1[i];
          }
        }
      }
    }
  }

  /** Every pair under another key survives the removal of `k`. */
  lemma {:induction false} RemoveKeeps(path: seq<Segment>, k: string)
    ensures forall i :: 0 <= i < |path| && path[i].key != k ==> path[i] in Remove(path, k)
    decreases |path|
  {
    if |path| > 0 {
      RemoveKeeps(path[1..], k);
      assert forall i :: 1 <= i < |path| ==> path[i] == path[1..][i - 1];
    }
  }

  /** A value found in a well-formed path is proper segment text. */
  lemma LookupWellFormed(path: seq<Segment>, k: string)
    ensures WellFormedPath(path) && Lookup(path, k).Some? ==> IsSegmentText(Lookup(path, k).value)
  {
  }

  /** Popping the key of the first pair, when no later pair repeats it. */
  lemma PopFirst(k: string, v: string, rest: seq<Segment>)
    requires v != "" && KeyAbsent(rest, k)
    ensures PopSegment([Segment(k, v)] + rest, k) == Ok((v, rest))
  {
    var path := [Segment(k, v)] + rest;
    assert path[1..] == rest;
    assert Lookup(path, k) == Some(v);
    RemoveAbsent(rest, k);
  }

  lemma FirstTwoKeys(path: seq<Segment>)
    requires UniqueKeys(path)
    ensures |path| >= 2 ==> path[0].key != path[1].key
  {
  }

  /** Popping `k` and finding nothing left: the path held exactly the pair keyed `k`. */
  lemma PopOnly(path: seq<Segment>, k: string)
    requires WellFormedPath(path)
    ensures (PopSegment(path, k).Ok? && PopSegment(path, k).value.1 == []) <==> (|path| == 1 && path[0].key == k)
  {
    if PopSegment(path, k).Ok? && PopSegment(path, k).value.1 == [] {
      RemoveKeeps(path, k);
      assert forall i :: 0 <= i < |path| ==> path[i].key == k;
      FirstTwoKeys(path);
      assert |path| > 0;
    }
    if |path| == 1 && path[0].key == k {
      assert path[1..] == [];
      assert Remove(path, k) == Remove([], k) == [];
      assert Lookup(path, k) == Some(path[0].value);
      assert path[0].value != "";
      assert PopSegment(path, k) == Ok((path[0].value, []));
    }
  }

  /** Popping two distinct keys and finding nothing left: the path held exactly those two pairs. */
  lemma PopPair(path: seq<Segment>, k1: string, k2: string)
    requires WellFormedPath(path) && k1 != k2
    ensures (PopSegment(path, k1).Ok? && PopSegment(PopSegment(path, k1).value.1, k2).Ok?
             && PopSegment(PopSegment(path, k1).value.1, k2).value.1 == [])
      <==> (|path| == 2 && Lookup(path, k1).Some? && Lookup(path, k2).Some?)
  {
    if PopSegment(path, k1).Ok? && PopSegment(PopSegment(path, k1).value.1, k2).Ok?
       && PopSegment(PopSegment(path, k1).value.1, k2).value.1 == [] {
      PoppedPair(path, k1, k2);
    }
    if |path| == 2 && Lookup(path, k1).Some? && Lookup(path, k2).Some? {
      PopsPair(path, k1, k2);
    }
  }

  lemma PoppedPair(path: seq<Segment>, k1: string, k2: string)
    requires WellFormedPath(path) && k1 != k2
    requires PopSegment(path, k1).Ok? && PopSegment(Remove(path, k1), k2).Ok?
    requires Remove(Remove(path, k1), k2) == []
    ensures |path| == 2
  {
    var path1 := Remove(path, k1);
    RemoveKeeps(path, k1);
    RemoveKeeps(path1, k2);
    RemoveFacts(path, k1);
    assert forall i :: 0 <= i < |path| ==> path[i].key == k1 || path[i].key == k2;
    var i1 :| 0 <= i1 < |path| && path[i1].key == k1;
    var j :| 0 <= j < |path1| && path1[j].key == k2;
    assert path1[j] in path;
    var i2 :| 0 <= i2 < |path| && path[i2] == path1[j];
    assert i1 != i2;
  }

  lemma PopsPair(path: seq<Segment>, k1: string, k2: string)
    requires WellFormedPath(path) && k1 != k2
    requires |path| == 2 && Lookup(path, k1).Some? && Lookup(path, k2).Some?
    ensures PopSegment(path, k1).Ok? && PopSegment(Remove(path, k1), k2).Ok?
    ensures Remove(Remove(path, k1), k2) == []
  {
    assert path[1..] == [path[1]] && [path[1]][1..] == [];
    if path[0].key == k1 {
      assert path[1].key == k2;
      assert Remove([path[1]], k1) == [path[1]] + Remove([], k1);
      assert Remove(path, k1) == [path[1]];
      assert Remove([path[1]], k2) == [];
    } else {
      assert path[0].key == k2 && path[1].key == k1;
      assert Remove([path[1]], k1) == Remove([], k1);
      assert Remove(path, k1) == [path[0]];
      assert Remove([path[0]], k2) == [];
    }
  }

  /** An ID rendered from its pairs, `/k0/v0/k1/v1/...`. */
  function Format(ps: seq<Segment>): string
  {
    if |ps| == 0 then "" else "/" + ps[0].key + "/" + ps[0].value + Format(ps[1..])
  }

  /** Rendering one more pair appends `/key/value`. */
  lemma {:induction false} FormatSnoc(ps: seq<Segment>, k: string, v: string)
    ensures Format(ps + [Segment(k, v)]) == Format(ps) + "/" + k + "/" + v
    decreases |ps|
  {
    var qs := ps + [Segment(k, v)];
    if |ps| == 0 {
      assert qs[1..] == [];
    } else {
      assert qs[1..] == ps[1..] + [Segment(k, v)];
      FormatSnoc(ps[1..], k, v);
      var p := ps[0];
      var f := Format(ps[1..]);
      assert Format(qs) == "/" + p.key + "/" + p.value + (f + "/" + k + "/" + v);
    }
  }

  /** A character other than the slash that no key or value holds is absent from the rendered ID. */
  lemma {:induction false} FormatAvoids(ps: seq<Segment>, c: char)
    requires c != '/'
    requires forall i :: 0 <= i < |ps| ==> c !in ps[i].key && c !in ps[i].value
    ensures c !in Format(ps)
    decreases |ps|
  {
    if |ps| > 0 {
      assert forall i :: 0 <= i < |ps[1..]| ==> ps[1..][i] == ps[i + 1];
      FormatAvoids(ps[1..], c);
    }
  }

  /** A rendered ID is its keys and values joined by slashes, after a leading slash. */
  lemma {:induction false} FormatIsJoin(ps: seq<Segment>)
    requires |ps| >= 1
    ensures Format(ps) == "/" + Join(Flatten(ps), "/")
    decreases |ps|
  {
    var p := ps[0];
    var f := Flatten(ps[1..]);
    assert Flatten(ps) == [p.key, p.value] + f;
    assert ([p.key, p.value] + f)[1..] == [p.value] + f;
    assert ([p.value] + f)[1..] == f;
    if |ps| == 1 {
      assert f == [];
      assert Join([p.key, p.value], "/") == p.key + "/" + p.value;
      assert "/" + (p.key + "/" + p.value) == "/" + p.key + "/" + p.value;
    } else {
      FormatIsJoin(ps[1..]);
      var j := Join(f, "/");
      assert Join([p.value] + f, "/") == p.value + "/" + j;
      assert Join([p.key, p.value] + f, "/") == p.key + "/" + (p.value + "/" + j);
      assert "/" + (p.key + "/" + (p.value + "/" + j)) == "/" + p.key + "/" + p.value + ("/" + j);
    }
  }

  lemma {:induction false} JoinEndsWithLast(parts: seq<string>, sep: string)
    requires |parts| >= 1
    ensures HasSuffix(Join(parts, sep), parts[|parts| - 1])
    decreases |parts|
  {
    if |parts| > 1 {
      JoinEndsWithLast(parts[1..], sep);
      var a := parts[0] + sep;
      var b := Join(parts[1..], sep);
      var x := parts[|parts| - 1];
      assert Join(parts, sep) == a + b;
      assert (a + b)[|a + b| - |x|..] == b[|b| - |x|..];
    }
  }

  lemma FlattenFree(ps: seq<Segment>)
    requires forall i :: 0 <= i < |ps| ==> IsSegmentText(ps[i].key) && IsSegmentText(ps[i].value)
    ensures forall k :: 0 <= k < |Flatten(ps)| ==> '/' !in Flatten(ps)[k]
  {
    var parts := Flatten(ps);
    FlattenAt(ps);
    forall k | 0 <= k < |parts| ensures '/' !in parts[k] {
      if k % 2 == 0 {
        assert parts[2 * (k / 2)] == ps[k / 2].key;
      } else {
        assert parts[2 * (k / 2) + 1] == ps[k / 2].value;
      }
    }
  }

  /** A join whose last piece is non-empty and slash-free does not end in a slash. */
  lemma NoTrailingSlash(parts: seq<string>)
    requires |parts| >= 1 && IsSegmentText(parts[|parts| - 1])
    ensures !HasSuffix(Join(parts, "/"), "/")
  {
    var body := Join(parts, "/");
    var last := parts[|parts| - 1];
    JoinEndsWithLast(parts, "/");
  }

  /** The path components of a rendered ID are exactly its keys and values. */
  lemma ComponentsOfFormat(ps: seq<Segment>)
    requires |ps| >= 1
    requires forall i :: 0 <= i < |ps| ==> IsSegmentText(ps[i].key) && IsSegmentText(ps[i].value)
    ensures HasPrefix(Format(ps), "/")
    ensures Components(Format(ps)) == Flatten(ps)
  {
    var parts := Flatten(ps);
    var body := Join(parts, "/");
    FormatIsJoin(ps);
    assert TrimPrefix(Format(ps), "/") == body by {
      assert Format(ps)[..1] == "/";
      assert Format(ps)[1..] == body;
    }
    FlattenAt(ps);
    assert parts[|parts| - 1] == ps[|ps| - 1].value;
    NoTrailingSlash(parts);
    FlattenFree(ps);
    SplitJoin(parts, '/');
  }

  /** The components of `/` + a join + `/` are the joined slash-free pieces. */
  lemma ComponentsSlashed(parts: seq<string>)
    requires |parts| >= 1
    requires forall k :: 0 <= k < |parts| ==> '/' !in parts[k]
    ensures Components("/" + Join(parts, "/") + "/") == parts
  {
    var body := Join(parts, "/");
    var input := "/" + body + "/";
    assert input[..1] == "/";
    assert TrimPrefix(input, "/") == body + "/";
    assert (body + "/")[|body|..] == "/";
    assert TrimSuffix(body + "/", "/") == body;
    SplitJoin(parts, '/');
  }

  /** A trailing slash after a rendered ID is ignored by the parser. */
  lemma TrailingSlash(ps: seq<Segment>)
    requires |ps| >= 1
    requires forall i :: 0 <= i < |ps| ==> IsSegmentText(ps[i].key) && IsSegmentText(ps[i].value)
    ensures Parse(Format(ps) + "/") == FromPairs(ps)
  {
    FormatIsJoin(ps);
    FlattenAt(ps);
    FlattenFree(ps);
    ComponentsSlashed(Flatten(ps));
    ParseOfFlatten(Format(ps) + "/", ps);
  }

  /** A key with no value after a rendered ID leaves an odd number of components, which is refused. */
  lemma DanglingKey(ps: seq<Segment>, k: string)
    requires forall i :: 0 <= i < |ps| ==> IsSegmentText(ps[i].key) && IsSegmentText(ps[i].value)
    requires IsSegmentText(k)
    ensures Parse(Format(ps) + "/" + k + "/").Err?
  {
    var parts := Flatten(ps) + [k];
    DanglingParts(ps, k);
    DanglingText(ps, k);
    ComponentsSlashed(parts);
    assert |Components(Format(ps) + "/" + k + "/")| % 2 == 1;
  }

  lemma DanglingParts(ps: seq<Segment>, k: string)
    requires forall i :: 0 <= i < |ps| ==> IsSegmentText(ps[i].key) && IsSegmentText(ps[i].value)
    requires IsSegmentText(k)
    ensures var parts := Flatten(ps) + [k];
      |parts| % 2 == 1 && forall j :: 0 <= j < |parts| ==> '/' !in parts[j]
  {
    var parts := Flatten(ps) + [k];
    FlattenFree(ps);
    forall j | 0 <= j < |parts| ensures '/' !in parts[j] {
      if j < |Flatten(ps)| {
        assert parts[j] == Flatten(ps)[j];
      }
    }
  }

  lemma DanglingText(ps: seq<Segment>, k: string)
    ensures Format(ps) + "/" + k + "/" == "/" + Join(Flatten(ps) + [k], "/") + "/"
  {
    if |ps| == 0 {
      assert Flatten(ps) + [k] == [k];
    } else {
      FormatIsJoin(ps);
      JoinAppend(Flatten(ps), k, "/");
      var j := Join(Flatten(ps), "/");
      Associate("/", j + "/", k);
    }
  }

  /** With no `subscriptions` key among the pairs, the pair loop keeps the subscription it started with. */
  lemma {:induction false} CollectKeepsSubscription(ps: seq<Segment>, subscription: string, path: seq<Segment>)
    requires forall i :: 0 <= i < |ps| ==> ps[i].key != "subscriptions"
    ensures Collect(ps, subscription, path).Ok? ==> Collect(ps, subscription, path).value.0 == subscription
    decreases |ps|
  {
    if |ps| > 0 {
      assert forall i :: 0 <= i < |ps[1..]| ==> ps[1..][i] == ps[i + 1];
      CollectKeepsSubscription(ps[1..], subscription, Put(path, ps[0].key, ps[0].value));
    }
  }

  /**
   * Keys are case-sensitive: an ID with no lower-case `s` in it has no
   * `subscriptions` key, so the parser refuses it.
   */
  lemma ParseNeedsSubscriptionKey(input: string)
    requires 's' !in input
    ensures Parse(input).Err?
  {
    if HasPrefix(input, "/") {
      var trimmed := TrimSuffix(TrimPrefix(input, "/"), "/");
      assert 's' !in trimmed by {
        forall j | 0 <= j < |trimmed| ensures trimmed[j] != 's' {
          assert trimmed[j] == input[j + 1];
        }
      }
      var c := Components(input);
      SplitPiecesAvoid(trimmed, "/", 's');
      if |c| % 2 == 0 {
        var ps := Pairs(c);
        PairsAt(c);
        forall i | 0 <= i < |ps| ensures ps[i].key != "subscriptions" {
          assert ps[i].key == c[2 * i];
          assert "subscriptions"[0] == 's';
        }
        CollectKeepsSubscription(ps, "", []);
      }
    }
  }

  /** No pair of the path has key `k`. */
  predicate KeyAbsent(path: seq<Segment>, k: string)
  {
    forall i :: 0 <= i < |path| ==> path[i].key != k
  }

  lemma LookupAbsent(path: seq<Segment>, k: string)
    requires KeyAbsent(path, k)
    ensures Lookup(path, k) == None
  {
  }

  lemma {:induction false} RemoveAbsent(path: seq<Segment>, k: string)
    requires KeyAbsent(path, k)
    ensures Remove(path, k) == path
    decreases |path|
  {
    if |path| > 0 {
      RemoveAbsent(path[1..], k);
      assert Remove(path, k) == [path[0]] + path[1..];
    }
  }

  lemma {:induction false} PutAbsent(path: seq<Segment>, k: string, v: string)
    requires KeyAbsent(path, k)
    ensures Put(path, k, v) == path + [Segment(k, v)]
    decreases |path|
  {
    if |path| > 0 {
      PutAbsent(path[1..], k, v);
      assert path + [Segment(k, v)] == [path[0]] + (path[1..] + [Segment(k, v)]);
    }
  }

  /** The pair loop over a concatenation runs over the first part, then the second. */
  lemma {:induction false} CollectAppend(a: seq<Segment>, b: seq<Segment>, subscription: string, path: seq<Segment>)
    ensures Collect(a + b, subscription, path) ==
      match Collect(a, subscription, path)
      case Ok((sub, p)) => Collect(b, sub, p)
      case Err(e) => Err(e)
    decreases |a|
  {
    if |a| > 0 {
      assert (a + b)[0] == a[0];
      assert (a + b)[1..] == a[1..] + b;
      var Segment(k, v) := a[0];
      if !(k == "" || v == "") {
        if k == "subscriptions" && subscription == "" {
          CollectAppend(a[1..], b, v, path);
        } else {
          CollectAppend(a[1..], b, subscription, Put(path, k, v));
        }
      }
    } else {
      assert a + b == b;
    }
  }

  /**
   * Once the subscription is known, well-formed pairs with fresh keys are
   * appended to the path in order.
   */
  lemma {:induction false} CollectFresh(b: seq<Segment>, subscription: string, path: seq<Segment>)
    requires subscription != ""
    requires WellFormedPath(b)
    requires forall i :: 0 <= i < |b| ==> KeyAbsent(path, b[i].key)
    ensures Collect(b, subscription, path) == Ok((subscription, path + b))
    decreases |b|
  {
    if |b| > 0 {
      PutAbsent(path, b[0].key, b[0].value);
      var path' := path + [b[0]];
      assert b[0] == Segment(b[0].key, b[0].value);
      assert !(b[0].key == "" || b[0].value == "");
      assert Collect(b, subscription, path) == Collect(b[1..], subscription, path');
      assert WellFormedPath(b[1..]) by {
        forall i, j | 0 <= i < j < |b[1..]| ensures b[1..][i].key != b[1..][j].key {
          assert b[1..][i] == b[i + 1] && b[1..][j] == b[j + 1];
        }
      }
      forall i | 0 <= i < |b[1..]| ensures KeyAbsent(path', b[1..][i].key) {
        assert b[1..][i] == b[i + 1];
      }
      CollectFresh(b[1..], subscription, path');
      assert path' + b[1..] == path + b;
    } else {
      assert path + b == path;
    }
  }

  /** The keys the parser sets aside. */
  predicate ReservedKey(k: string)
  {
    k == "subscriptions" || k == "resourceGroups" || k == "providers"
  }

  /** The pairs the parser sets aside, as they appear at the front of a conventional ID. */
  function Head(subscription: string, resourceGroup: string, provider: string): seq<Segment>
  {
    [Segment("subscriptions", subscription), Segment("resourceGroups", resourceGroup)]
      + (if provider == "" then [] else [Segment("providers", provider)])
  }

  lemma CollectHead(subscription: string, resourceGroup: string, provider: string)
    requires IsSegmentText(subscription) && IsSegmentText(resourceGroup)
    requires provider == "" || IsSegmentText(provider)
    ensures Collect(Head(subscription, resourceGroup, provider), "", [])
      == Ok((subscription, Head(subscription, resourceGroup, provider)[1..]))
  {
    var head := Head(subscription, resourceGroup, provider);
    var rg := Segment("resourceGroups", resourceGroup);
    assert head[1..][0] == rg;
    assert Collect(head, "", []) == Collect(head[1..], subscription, []);
    assert Put([], "resourceGroups", resourceGroup) == [rg];
    assert Collect(head[1..], subscription, []) == Collect(head[2..], subscription, [rg]);
    if provider == "" {
      assert head[1..] == [rg];
      assert head[2..] == [];
    } else {
      var pr := Segment("providers", provider);
      assert head[1..] == [rg, pr];
      assert Put([rg], "providers", provider) == [rg, pr];
    }
  }

  /** The pairs of a conventional ID collect to its subscription and the rest of its path. */
  lemma CollectConventional(subscription: string, resourceGroup: string, provider: string, rest: seq<Segment>)
    requires IsSegmentText(subscription) && IsSegmentText(resourceGroup)
    requires provider == "" || IsSegmentText(provider)
    requires WellFormedPath(rest)
    requires forall i :: 0 <= i < |rest| ==> !ReservedKey(rest[i].key)
    ensures Collect(Head(subscription, resourceGroup, provider) + rest, "", [])
      == Ok((subscription, Head(subscription, resourceGroup, provider)[1..] + rest))
  {
    var head := Head(subscription, resourceGroup, provider);
    CollectHead(subscription, resourceGroup, provider);
    CollectAppend(head, rest, "", []);
    RestFresh(subscription, resourceGroup, provider, rest);
    CollectFresh(rest, subscription, head[1..]);
  }

  /** No key of the rest of a conventional ID repeats a set-aside key. */
  lemma RestFresh(subscription: string, resourceGroup: string, provider: string, rest: seq<Segment>)
    requires forall i :: 0 <= i < |rest| ==> !ReservedKey(rest[i].key)
    ensures forall i :: 0 <= i < |rest| ==> KeyAbsent(Head(subscription, resourceGroup, provider)[1..], rest[i].key)
  {
    var headPath := Head(subscription, resourceGroup, provider)[1..];
    if provider == "" {
      assert headPath == [Segment("resourceGroups", resourceGroup)];
    } else {
      assert headPath == [Segment("resourceGroups", resourceGroup), Segment("providers", provider)];
    }
  }

  /** Removing the resource group and provider pairs leaves the rest of the path. */
  lemma RemoveHead(resourceGroup: string, provider: string, rest: seq<Segment>)
    requires forall i :: 0 <= i < |rest| ==> !ReservedKey(rest[i].key)
    ensures var path := Head("s", resourceGroup, provider)[1..] + rest;
      && Lookup(path, "resourceGroups") == Some(resourceGroup)
      && var path1 := Remove(path, "resourceGroups");
      && Lookup(path1, "providers") == (if provider == "" then None else Some(provider))
      && Remove(path1, "providers") == rest
  {
    var headPath := Head("s", resourceGroup, provider)[1..];
    var path := headPath + rest;
    assert path[0] == Segment("resourceGroups", resourceGroup);
    RemoveAbsent(rest, "resourceGroups");
    RemoveAbsent(rest, "providers");
    LookupAbsent(rest, "providers");
    var path1 := Remove(path, "resourceGroups");
    assert path == [path[0]] + (headPath[1..] + rest);
    assert path1 == Remove(headPath[1..] + rest, "resourceGroups");
    if provider == "" {
      assert headPath[1..] + rest == rest;
    } else {
      var pr := Segment("providers", provider);
      assert headPath[1..] + rest == [pr] + rest;
      assert path1 == [pr] + rest;
    }
  }

  /** What the parser keeps of a conventional ID's pairs. */
  lemma FromConventional(subscription: string, resourceGroup: string, provider: string, rest: seq<Segment>)
    requires IsSegmentText(subscription) && IsSegmentText(resourceGroup)
    requires provider == "" || IsSegmentText(provider)
    requires WellFormedPath(rest)
    requires forall i :: 0 <= i < |rest| ==> !ReservedKey(rest[i].key)
    ensures FromPairs(Head(subscription, resourceGroup, provider) + rest)
      == Ok(ResourceId(subscription, resourceGroup, provider, rest))
  {
    CollectConventional(subscription, resourceGroup, provider, rest);
    assert Head(subscription, resourceGroup, provider)[1..] == Head("s", resourceGroup, provider)[1..];
    RemoveHead(resourceGroup, provider, rest);
  }

  lemma ConventionalTexts(subscription: string, resourceGroup: string, provider: string, rest: seq<Segment>)
    requires IsSegmentText(subscription) && IsSegmentText(resourceGroup)
    requires provider == "" || IsSegmentText(provider)
    requires WellFormedPath(rest)
    ensures var ps := Head(subscription, resourceGroup, provider) + rest;
      forall i :: 0 <= i < |ps| ==> IsSegmentText(ps[i].key) && IsSegmentText(ps[i].value)
  {
    var head := Head(subscription, resourceGroup, provider);
    var ps := head + rest;
    forall i | 0 <= i < |ps|
      ensures IsSegmentText(ps[i].key) && IsSegmentText(ps[i].value)
    {
      if i >= |head| {
        assert ps[i] == rest[i - |head|];
      }
    }
  }

  /** The parser reads a conventional ID back into its parts. */
  lemma ParseConventional(subscription: string, resourceGroup: string, provider: string, rest: seq<Segment>)
    requires IsSegmentText(subscription) && IsSegmentText(resourceGroup)
    requires provider == "" || IsSegmentText(provider)
    requires WellFormedPath(rest)
    requires forall i :: 0 <= i < |rest| ==> !ReservedKey(rest[i].key)
    ensures Parse(Format(Head(subscription, resourceGroup, provider) + rest))
      == Ok(ResourceId(subscription, resourceGroup, provider, rest))
  {
    var ps := Head(subscription, resourceGroup, provider) + rest;
    ConventionalTexts(subscription, resourceGroup, provider, rest);
    ParseFormat(ps);
    FromConventional(subscription, resourceGroup, provider, rest);
  }

  /** A trailing slash after a conventional ID is ignored. */
  lemma ParseConventionalSlash(subscription: string, resourceGroup: string, provider: string, rest: seq<Segment>)
    requires IsSegmentText(subscription) && IsSegmentText(resourceGroup)
    requires provider == "" || IsSegmentText(provider)
    requires WellFormedPath(rest)
    requires forall i :: 0 <= i < |rest| ==> !ReservedKey(rest[i].key)
    ensures Parse(Format(Head(subscription, resourceGroup, provider) + rest) + "/")
      == Ok(ResourceId(subscription, resourceGroup, provider, rest))
  {
    var ps := Head(subscription, resourceGroup, provider) + rest;
    ConventionalTexts(subscription, resourceGroup, provider, rest);
    TrailingSlash(ps);
    FromConventional(subscription, resourceGroup, provider, rest);
  }

  /** A key with no value after a conventional ID is refused. */
  lemma DanglingConventional(subscription: string, resourceGroup: string, provider: string, rest: seq<Segment>, k: string)
    requires IsSegmentText(subscription) && IsSegmentText(resourceGroup)
    requires provider == "" || IsSegmentText(provider)
    requires WellFormedPath(rest) && IsSegmentText(k)
    ensures Parse(Format(Head(subscription, resourceGroup, provider) + rest) + "/" + k + "/").Err?
  {
    ConventionalTexts(subscription, resourceGroup, provider, rest);
    DanglingKey(Head(subscription, resourceGroup, provider) + rest, k);
  }

  /** Rendering a leading pair, given the literal `/key/` it starts with. */
  lemma FormatLeading(key: string, value: string, rest: seq<Segment>, prefix: string)
    requires prefix == "/" + key + "/"
    ensures Format([Segment(key, value)] + rest) == prefix + value + Format(rest)
  {
    var ps := [Segment(key, value)] + rest;
    assert ps[1..] == rest;
  }

  lemma Associate(x: string, y: string, z: string)
    ensures x + (y + z) == x + y + z
  {
  }

  /** How a conventional ID with a provider is rendered. */
  lemma FormatHead(subscription: string, resourceGroup: string, provider: string, rest: seq<Segment>)
    requires provider != ""
    ensures Format(Head(subscription, resourceGroup, provider) + rest)
      == "/subscriptions/" + subscription + "/resourceGroups/" + resourceGroup + "/providers/" + provider + Format(rest)
  {
    FormatHeadNested(subscription, resourceGroup, provider, rest);
    var f := Format(rest);
    Associate("/resourceGroups/" + resourceGroup, "/providers/" + provider, f);
    Associate("/subscriptions/" + subscription, "/resourceGroups/" + resourceGroup + "/providers/" + provider, f);
    Associate("/subscriptions/" + subscription, "/resourceGroups/" + resourceGroup, "/providers/" + provider);
    Associate("/subscriptions/" + subscription + "/resourceGroups/", resourceGroup, "/providers/" + provider);
  }

  lemma FormatHeadNested(subscription: string, resourceGroup: string, provider: string, rest: seq<Segment>)
    requires provider != ""
    ensures Format(Head(subscription, resourceGroup, provider) + rest)
      == "/subscriptions/" + subscription + ("/resourceGroups/" + resourceGroup + ("/providers/" + provider + Format(rest)))
  {
    var a := Segment("subscriptions", subscription);
    var b := Segment("resourceGroups", resourceGroup);
    var c := Segment("providers", provider);
    assert Head(subscription, resourceGroup, provider) == [a, b, c];
    assert [a, b, c] + rest == [a] + ([b] + ([c] + rest));
    FormatLeading("providers", provider, rest, "/providers/");
    FormatLeading("resourceGroups", resourceGroup, [c] + rest, "/resourceGroups/");
    FormatLeading("subscriptions", subscription, [b] + ([c] + rest), "/subscriptions/");
  }

  lemma Regroup1(x: string, p: string, provider: string, k: string, v: string)
    ensures x + p + provider + (k + v + "") == x + (p + provider + k) + v
  {
  }

  lemma Regroup2(x: string, p: string, provider: string, k1: string, v1: string, k2: string, v2: string)
    ensures x + p + provider + (k1 + v1 + (k2 + v2 + "")) == x + (p + provider + k1) + v1 + k2 + v2
  {
  }

  /**
   * A conventional ID with a provider and one further pair renders as
   * `/subscriptions/{s}/resourceGroups/{rg}/providers/{provider}/{k}/{v}`.
   */
  lemma FormatConventional1(subscription: string, resourceGroup: string, provider: string, k: string, v: string)
    requires provider != ""
    ensures Format(Head(subscription, resourceGroup, provider) + [Segment(k, v)])
      == "/subscriptions/" + subscription + "/resourceGroups/" + resourceGroup
         + ("/providers/" + provider + ("/" + k + "/")) + v
  {
    FormatHead(subscription, resourceGroup, provider, [Segment(k, v)]);
    FormatLeading(k, v, [], "/" + k + "/");
    assert [Segment(k, v)] + [] == [Segment(k, v)];
    Regroup1("/subscriptions/" + subscription + "/resourceGroups/" + resourceGroup, "/providers/", provider, "/" + k + "/", v);
  }

  /** A conventional ID with a provider and two further pairs. */
  lemma FormatConventional2(subscription: string, resourceGroup: string, provider: string, k1: string, v1: string, k2: string, v2: string)
    requires provider != ""
    ensures Format(Head(subscription, resourceGroup, provider) + [Segment(k1, v1), Segment(k2, v2)])
      == "/subscriptions/" + subscription + "/resourceGroups/" + resourceGroup
         + ("/providers/" + provider + ("/" + k1 + "/")) + v1 + ("/" + k2 + "/") + v2
  {
    FormatHead(subscription, resourceGroup, provider, [Segment(k1, v1), Segment(k2, v2)]);
    FormatLeading(k2, v2, [], "/" + k2 + "/");
    assert [Segment(k2, v2)] + [] == [Segment(k2, v2)];
    FormatLeading(k1, v1, [Segment(k2, v2)], "/" + k1 + "/");
    assert [Segment(k1, v1)] + [Segment(k2, v2)] == [Segment(k1, v1), Segment(k2, v2)];
    Regroup2("/subscriptions/" + subscription + "/resourceGroups/" + resourceGroup, "/providers/", provider,
      "/" + k1 + "/", v1, "/" + k2 + "/", v2);
  }

  lemma PairsFlatten(ps: seq<Segment>)
    ensures Pairs(Flatten(ps)) == ps
  {
  }

  lemma FormatSubscription(subscription: string)
    ensures Format([Segment("subscriptions", subscription)]) == "/subscriptions/" + subscription
  {
    var seg := Segment("subscriptions", subscription);
    FormatLeading("subscriptions", subscription, [], "/subscriptions/");
    assert [seg] + [] == [seg];
  }

  lemma FromSubscriptionOnly(subscription: string)
    requires IsSegmentText(subscription)
    ensures FromPairs([Segment("subscriptions", subscription)]) == Ok(ResourceId(subscription, "", "", []))
  {
    var seg := Segment("subscriptions", subscription);
    assert [seg][1..] == [];
    assert Collect([seg], "", []) == Ok((subscription, []));
  }

  /** A bare subscription ID parses to a subscription with nothing else. */
  lemma ParseSubscriptionOnly(subscription: string)
    requires IsSegmentText(subscription)
    ensures Parse("/subscriptions/" + subscription) == Ok(ResourceId(subscription, "", "", []))
  {
    FormatSubscription(subscription);
    ParseFormat([Segment("subscriptions", subscription)]);
    FromSubscriptionOnly(subscription);
  }

  /** A trailing slash after a bare subscription ID is ignored. */
  lemma ParseSubscriptionSlash(subscription: string)
    requires IsSegmentText(subscription)
    ensures Parse("/subscriptions/" + subscription + "/") == Ok(ResourceId(subscription, "", "", []))
  {
    FormatSubscription(subscription);
    TrailingSlash([Segment("subscriptions", subscription)]);
    FromSubscriptionOnly(subscription);
  }

  lemma Glue(x: string, a: string, b: string, c: string)
    ensures x + a + b + c == x + (a + b + c)
  {
  }

  /** Parsing a rendered ID reduces to reading its pairs. */
  lemma ParseFormat(ps: seq<Segment>)
    requires |ps| >= 1
    requires forall i :: 0 <= i < |ps| ==> IsSegmentText(ps[i].key) && IsSegmentText(ps[i].value)
    ensures Parse(Format(ps)) == FromPairs(ps)
  {
    ComponentsOfFormat(ps);
    ParseOfFlatten(Format(ps), ps);
  }

  /** The parser reads a request path whose components are the flattened pairs as those pairs. */
  lemma ParseOfFlatten(input: string, ps: seq<Segment>)
    requires HasPrefix(input, "/") && Components(input) == Flatten(ps)
    ensures Parse(input) == FromPairs(ps)
  {
    PairsFlatten(ps);
    var c := Components(input);
    assert |c| % 2 == 0;
    assert Pairs(c) == ps;
  }
}
